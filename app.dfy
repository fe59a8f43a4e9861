/** The App component: the single owner of who is signed in and of the list of
    alerts on screen. Each handler replaces one state field with a value
    computed from the old one; `setState` is modelled as an immediate update. */
module AppController {
  import opened Wrappers
  import opened Session
  import opened Alerts
  import opened RouteGuard

  class App {
    /** `state.user`: `None` until someone signs in. */
    var user: User
    /** `state.msgAlerts`: the alerts on screen, oldest first. */
    var msgAlerts: seq<Alert>
    /** The id `uuid()` hands out next. */
    var nextId: AlertId

    /** Ids on screen are pairwise distinct and were all handed out already. */
    ghost predicate Valid()
      reads this
    {
      DistinctIds(msgAlerts) && IdsBelow(msgAlerts, nextId)
    }

    /** Nobody is signed in and no alert is showing. */
    constructor ()
      ensures Valid()
      ensures user == None && msgAlerts == []
    {
      user := None;
      msgAlerts := [];
      nextId := 0;
    }

    /** `setUser`: replaces the user, whatever it was; the alerts are untouched. */
    method SetUser(u: User)
      requires Valid()
      modifies this`user
      ensures Valid()
      ensures user == u
      ensures msgAlerts == old(msgAlerts) && nextId == old(nextId)
    {
      user := u;
    }

    /** `clearUser`: signs out locally. Afterwards both guarded routes redirect. */
    method ClearUser()
      requires Valid()
      modifies this`user
      ensures Valid()
      ensures user == None
      ensures msgAlerts == old(msgAlerts) && nextId == old(nextId)
      ensures Decide(user, "/sign-out") == RedirectTo("/")
      ensures Decide(user, "/change-password") == RedirectTo("/")
    {
      user := None;
      GuardedPaths(user, "/sign-out");
      GuardedPaths(user, "/change-password");
    }

    /** `deleteAlert(id)`: drops every alert with this id, keeping the others in order. */
    method DeleteAlert(id: AlertId)
      requires Valid()
      modifies this`msgAlerts
      ensures Valid()
      ensures msgAlerts == FilterOutId(old(msgAlerts), id)
      ensures !HasId(msgAlerts, id)
      ensures user == old(user) && nextId == old(nextId)
    {
      FilterOutIdKeepsDistinct(msgAlerts, id);
      msgAlerts := FilterOutId(msgAlerts, id);
    }

    /** `msgAlert({heading, message, variant})`: appends one alert under a fresh
        id, one that no alert on screen carries and that is never given again. */
    method MsgAlert(heading: string, message: string, variant: string) returns (id: AlertId)
      requires Valid()
      modifies this`msgAlerts, this`nextId
      ensures Valid()
      ensures !HasId(old(msgAlerts), id)
      ensures old(nextId) <= id < nextId
      ensures msgAlerts == old(msgAlerts) + [Alert(heading, message, variant, id)]
      ensures user == old(user)
    {
      id := nextId;
      nextId := nextId + 1;
      AppendFreshKeepsDistinct(msgAlerts, Alert(heading, message, variant, id));
      msgAlerts := msgAlerts + [Alert(heading, message, variant, id)];
    }

    /** What SignOut does once its remote call settles, however it settled:
        announce the sign-out, then clear the user. */
    method SignOut(signOutMessage: string, remoteSucceeded: bool) returns (id: AlertId)
      requires Valid()
      modifies this`user, this`msgAlerts, this`nextId
      ensures Valid()
      ensures user == None
      ensures !HasId(old(msgAlerts), id)
      ensures old(nextId) <= id < nextId
      ensures msgAlerts == old(msgAlerts) + [Alert("Signed Out Successfully", signOutMessage, "success", id)]
    {
      id := MsgAlert("Signed Out Successfully", signOutMessage, "success");
      ClearUser();
    }
  }
}
