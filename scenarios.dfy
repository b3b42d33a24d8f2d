/** Scenarios whose assertions the verifier proves: what a caller of the
    session manager and the login form can conclude. */
module Scenarios {
  import opened Common
  import opened Storage
  import opened AuthContext
  import Routing
  import LoginComponent

  /** Sign in with a `created` reply, reload, then sign out. */
  method SignInReloadSignOut()
  {
    var store := new LocalStorage(None, None, true, true, Exception("", "Error"));
    var auth := new AuthProvider(store);
    auth.Restore();
    assert auth.user == None && !auth.loading;
    assert Routing.RequireAuthView(auth.loading, auth.user) == Routing.Navigate(Routing.LoginPath, true);

    var server := (username: string, deviceId: string) => Replied(Single(Row("created", username, "S1", Some(7))));
    var res := auth.SignIn("alice", "device-1", server);
    assert res == Success && auth.user == Some(User("alice", "S1", Some(7)));
    assert store.deviceId == Some("device-1") && store.user == Some(Record(User("alice", "S1", Some(7))));

    var reloaded := new AuthProvider(store);
    reloaded.Restore();
    assert reloaded.user == auth.user;
    assert Routing.LoginPageView(reloaded.loading, reloaded.user) == Routing.Navigate(Routing.HomePath, true);

    auth.SignOut();
    assert auth.user == None && store.user == None && store.deviceId == Some("device-1");
  }

  /** A device mismatch is reported in Arabic and changes nothing but the device id. */
  method DeviceMismatchChangesNothing()
  {
    var store := new LocalStorage(Some("device-0"), None, true, true, Exception("", "Error"));
    var auth := new AuthProvider(store);
    var server := (username: string, deviceId: string) =>
      if deviceId == "device-0" then Replied(Rows([Row("device_mismatch", "", "", None)])) else RpcError("unexpected");
    var res := auth.SignIn("alice", "device-1", server);
    assert res == Failure(DeviceMismatchText);
    assert auth.user == None && store.user == None && store.deviceId == Some("device-0");
  }

  /** With storage that refuses writes, the form shows the storage error and never signs in. */
  method RefusedWritesBlockFormLogin()
  {
    var store := new LocalStorage(Some("device-0"), None, true, false, Exception("QuotaExceededError", "QuotaExceededError"));
    var auth := new AuthProvider(store);
    var form := new LoginComponent.LoginForm(auth);
    form.Type("alice");
    var server := (username: string, deviceId: string) => Replied(Single(Row("ok", username, "S1", None)));
    var navigateTo := form.HandleLogin("device-1", "device-2", server);
    assert navigateTo == None && form.error == "QuotaExceededError" && auth.user == None;
  }
}
