/** The login form (`Login` component): its `username`, `serial` and `error`
    fields, the button rule, and the login and logout handlers. */
module LoginComponent {
  import opened Common
  import opened Storage
  import DeviceIdentity
  import AuthContext
  import Routing

  const LoginFailedText := "Login failed"

  /** A character `String.prototype.trim` removes: ECMAScript WhiteSpace
      (tab, vertical tab, form feed, space, no-break space, byte order mark
      and the other space separators) and LineTerminator. */
  predicate IsTrimmed(c: char)
  {
    c == '\U{0009}' || c == '\U{000B}' || c == '\U{000C}' || c == ' ' || c == '\U{00A0}' || c == '\U{FEFF}'
    || c == '\U{1680}' || ('\U{2000}' <= c <= '\U{200A}') || c == '\U{202F}' || c == '\U{205F}' || c == '\U{3000}'
    || c == '\U{000A}' || c == '\U{000D}' || c == '\U{2028}' || c == '\U{2029}'
  }

  /** Drops leading trimmed characters: the result is the suffix of `s` that
      starts at its first other character. */
  function TrimStart(s: string): (r: string)
    ensures |r| <= |s| && r == s[|s| - |r|..]
    ensures forall i :: 0 <= i < |s| - |r| ==> IsTrimmed(s[i])
    ensures r != [] ==> !IsTrimmed(r[0])
    decreases |s|
  {
    if s != [] && IsTrimmed(s[0]) then TrimStart(s[1..]) else s
  }

  /** Drops trailing trimmed characters: the result is the prefix of `s` that
      ends at its last other character. */
  function TrimEnd(s: string): (r: string)
    ensures |r| <= |s| && r == s[..|r|]
    ensures forall i :: |r| <= i < |s| ==> IsTrimmed(s[i])
    ensures r != [] ==> !IsTrimmed(r[|r| - 1])
    decreases |s|
  {
    if s != [] && IsTrimmed(s[|s| - 1]) then TrimEnd(s[..|s| - 1]) else s
  }

  /** `r` is the run of `s` that starts at index `i`, and every character of
      `s` before or after that run is a trimmed one. */
  predicate TrimmedRun(s: string, i: int, r: string)
  {
    && 0 <= i <= |s| - |r| && r == s[i..i + |r|]
    && (forall j :: 0 <= j < i ==> IsTrimmed(s[j]))
    && (forall j :: i + |r| <= j < |s| ==> IsTrimmed(s[j]))
  }

  /** `s.trim()`: a contiguous run of `s` with only trimmed characters
      dropped on either side; neither end of the result is a trimmed
      character, and the result is empty exactly when every character of `s`
      is trimmed. */
  function Trim(s: string): (r: string)
    ensures |r| <= |s|
    ensures exists i :: TrimmedRun(s, i, r)
    ensures r != [] ==> !IsTrimmed(r[0]) && !IsTrimmed(r[|r| - 1])
    ensures r == [] <==> forall i :: 0 <= i < |s| ==> IsTrimmed(s[i])
  {
    var start := TrimStart(s);
    var r := TrimEnd(start);
    // the first character that trimStart keeps is not trimmed
    assert r != [] ==> s[|s| - |start|] == start[0];
    assert TrimmedRun(s, |s| - |start|, r);
    r
  }

  /** The login button is disabled (`!username.trim()`): exactly when the
      username is made only of whitespace and line terminators (the empty
      username included). */
  predicate LoginDisabled(username: string)
    ensures LoginDisabled(username) <==> forall i :: 0 <= i < |username| ==> IsTrimmed(username[i])
  {
    Trim(username) == ""
  }

  /** `res.error || 'Login failed'`: the text shown after a failed sign-in. */
  function FailureText(error: string): (text: string)
    ensures text != ""
    ensures error != "" ==> text == error
    ensures error == "" ==> text == LoginFailedText
  {
    if error != "" then error else LoginFailedText
  }

  class LoginForm {
    var username: string
    var error: string
    var serial: string
    const auth: AuthContext.AuthProvider

    /** The initial state: every field empty. */
    constructor (auth: AuthContext.AuthProvider)
      ensures this.auth == auth && username == "" && error == "" && serial == ""
    {
      this.auth := auth;
      username, error, serial := "", "", "";
    }

    /** The input's `onChange`. */
    method Type(text: string)
      modifies this`username
      ensures username == text
    {
      username := text;
    }

    /** The effect on `[user]`: a signed-in user's name and serial are shown in the form. */
    method MirrorUser()
      modifies this`username, this`serial
      ensures auth.user.Some? ==> username == auth.user.value.username && serial == auth.user.value.serial
      ensures auth.user.None? ==> username == old(username) && serial == old(serial)
    {
      if auth.user.Some? {
        username := auth.user.value.username;
        serial := auth.user.value.serial;
      }
    }

    /** `generateDeviceId()`: a refused read throws; a stored truthy id is
        returned without writing; otherwise the candidate is written (a failed
        write ignored) and returned. */
    method GenerateDeviceId(candidate: string) returns (r: Completion<string>)
      modifies auth.store`deviceId
      ensures !auth.store.accessible ==> r == Threw(auth.store.failure) && auth.store.deviceId == old(auth.store.deviceId)
      ensures auth.store.accessible ==> r == Returned(DeviceIdentity.ChosenId(old(auth.store.deviceId), candidate))
      ensures auth.store.deviceId == DeviceIdentity.SlotAfter(old(auth.store.deviceId), candidate, auth.store.CanWrite())
    {
      var read := auth.store.GetDeviceId();
      if read.Threw? {
        return Threw(read.exception);
      }
      var id, _ := DeviceIdentity.GetOrCreate(auth.store, read.value, candidate);
      r := Returned(id);
    }

    /** `handleLogout()`: clear the serial and the error and remove the `user`
        key (a refused removal ignored). The provider's user and the device
        id are left as they are. */
    method HandleLogout()
      modifies this`serial, this`error, auth.store`user
      ensures serial == "" && error == ""
      ensures auth.store.user == (if auth.store.accessible then None else old(auth.store.user))
      ensures auth.user == old(auth.user) && auth.store.deviceId == old(auth.store.deviceId)
      ensures auth.user.Some? && auth.store.accessible ==> !auth.Synced()
    {
      serial, error := "", "";
      var _ := auth.store.RemoveUser();
    }

    /** `handleLogin()`. The device id is got or created with `formCandidate`
        and then written again without a guard, so a storage that refuses the
        write makes the handler show the storage error without signing in.
        Otherwise `signIn` runs (generating `authCandidate` only if the stored
        id is empty); a failure clears the serial and shows its error, or
        'Login failed' when that is empty; a success clears the error and
        navigates home. */
    method HandleLogin(formCandidate: string, authCandidate: string, server: (string, string) -> AuthContext.RpcOutcome)
      returns (navigateTo: Option<string>)
      modifies this`serial, this`error, auth`user, auth.store`deviceId, auth.store`user
      ensures username == old(username)
      ensures !auth.store.CanWrite() ==>
                && error == ErrorText(auth.store.failure) && serial == old(serial) && navigateTo == None
                && auth.store.deviceId == old(auth.store.deviceId)
                && auth.user == old(auth.user) && auth.store.user == old(auth.store.user)
      ensures auth.store.CanWrite() ==>
                var id := DeviceIdentity.ChosenId(old(auth.store.deviceId), formCandidate);
                var sent := DeviceIdentity.ChosenId(Some(id), authCandidate);
                var v := AuthContext.Classify(server(username, sent));
                && auth.store.deviceId == DeviceIdentity.SlotAfter(Some(id), authCandidate, true)
                && (v.Refuse? ==> serial == "" && error == FailureText(v.error) && navigateTo == None
                                  && auth.user == old(auth.user) && auth.store.user == old(auth.store.user))
                && (v.Open? ==> error == "" && navigateTo == Some(Routing.HomePath) && serial == old(serial)
                                && auth.user == Some(v.user) && auth.store.user == Some(Record(v.user)))
    {
      navigateTo := None;
      var generated := GenerateDeviceId(formCandidate);
      if generated.Threw? {
        error := ErrorText(generated.exception);
        return;
      }
      var thrown := auth.store.SetDeviceId(generated.value);
      if thrown.Some? {
        error := ErrorText(thrown.value);
        return;
      }
      var res := auth.SignIn(username, authCandidate, server);
      if res.Failure? {
        serial := "";
        error := FailureText(res.error);
      } else {
        error := "";
        navigateTo := Some(Routing.HomePath);
      }
    }
  }

  /** After the unguarded write, the id the server receives is the one
      `generateDeviceId` returned whenever that one is non-empty. */
  lemma ServerReceivesFormId(slot: Option<string>, formCandidate: string, authCandidate: string)
    requires DeviceIdentity.HasId(slot) || formCandidate != ""
    ensures DeviceIdentity.ChosenId(Some(DeviceIdentity.ChosenId(slot, formCandidate)), authCandidate)
            == DeviceIdentity.ChosenId(slot, formCandidate)
  {
  }
}
