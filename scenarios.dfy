/** Four call sequences on a fresh App, built only from the
    contracts of its handlers and of the alert component. */
module Scenarios {
  import opened Wrappers
  import opened Session
  import opened Alerts
  import opened RouteGuard
  import opened AppController
  import opened AutoDismiss

  /** Sign in, open `/change-password`, sign out, open it again. */
  method SignInThenOut(token: string) returns (signedIn: Decision, signedOut: Decision)
    ensures signedIn == Allow
    ensures signedOut == RedirectTo("/")
  {
    var app := new App();
    app.SetUser(Some(Credential("user@example.com", token)));
    GuardedPaths(app.user, "/change-password");
    signedIn := Decide(app.user, "/change-password");
    app.ClearUser();
    signedOut := Decide(app.user, "/change-password");
  }

  /** A signed-in user signs out, which raises one alert; left alone, its auto-close timer hides it,
      the fade timer asks App to delete it, and the list is empty again. */
  method AlertExpires(signOutMessage: string, remoteSucceeded: bool)
    returns (shown: seq<Alert>, hidden: bool, afterFade: seq<Alert>)
    ensures |shown| == 1 && shown[0].heading == "Signed Out Successfully"
    ensures shown[0].variant == "success"
    ensures hidden
    ensures afterFade == []
  {
    var app := new App();
    app.SetUser(Some(Credential("user@example.com", "token")));
    var id := app.SignOut(signOutMessage, remoteSucceeded);
    shown := app.msgAlerts;

    var alert := new AutoDismissAlert(id);
    alert.ComponentDidMount();
    var autoClose := alert.timeoutId.value;
    var fade := alert.nextHandle;
    var none := alert.TimerFires(autoClose);
    assert none == None;
    hidden := !alert.show;

    var request := alert.TimerFires(fade);
    app.DeleteAlert(request.value);
    afterFade := app.msgAlerts;
  }

  /** An alert is raised and deleted, then sign-out (reachable only when
      signed in) raises another: the second
      alert does not reuse the first one's id, so a late delete timer left by
      the first cannot remove it. */
  method IdsNotReused(signOutMessage: string, remoteSucceeded: bool)
    returns (first: AlertId, second: AlertId, onScreen: seq<Alert>)
    ensures first != second
    ensures |onScreen| == 1 && onScreen[0].id == second
  {
    var app := new App();
    app.SetUser(Some(Credential("user@example.com", "token")));
    first := app.MsgAlert("Sign Up Success", "", "success");
    app.DeleteAlert(first);
    second := app.SignOut(signOutMessage, remoteSucceeded);
    onScreen := app.msgAlerts;
  }

  /** The alert is closed by hand, then the auto-close timer and the two
      delete timers fire; a later render schedules one more delete, and
      unmounting does not cancel it: it still fires and asks to delete the
      alert's own id. */
  method DeleteOutlivesUnmount(id: AlertId) returns (request: Option<AlertId>)
    ensures request == Some(id)
  {
    var alert := new AutoDismissAlert(id);
    alert.ComponentDidMount();
    var autoClose := alert.timeoutId.value;
    var firstFade := alert.nextHandle;
    alert.CloseClicked();
    var secondFade := alert.nextHandle;
    var none := alert.TimerFires(autoClose);
    assert none == None;
    var first := alert.TimerFires(firstFade);
    var second := alert.TimerFires(secondFade);
    assert first == second == Some(id);
    var lastFade := alert.nextHandle;
    alert.Render();
    alert.ComponentWillUnmount();
    request := alert.TimerFires(lastFade);
  }
}
