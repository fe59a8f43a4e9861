/** One on-screen alert and its two-phase dismissal: a 5000 ms timer (or the
    close button) hides the alert, and while it is hidden every render
    schedules a 300 ms timer that asks App to delete it. Timers are explicit:
    the component keeps the ones it scheduled in a map from handle to timer,
    and a timer's firing is an event that names its handle. Elapsed time is
    not modelled; the delays are labels. */
module AutoDismiss {
  import opened Wrappers
  import opened Alerts

  /** The value `setTimeout` returns and `clearTimeout` takes. */
  type TimerHandle = nat

  /** Delay of the auto-close timer, in milliseconds. */
  const AutoCloseDelay: nat := 5000
  /** Delay between hiding and deleting (the fade-out), in milliseconds. */
  const FadeDelay: nat := 300

  /** What a timer calls when it fires. */
  datatype Callback = HandleCloseCallback | DeleteAlertCallback(alertId: AlertId)

  datatype Timer = Timer(delay: nat, callback: Callback)

  /** Where React is in the component's life. */
  datatype Phase = Constructed | Mounted | Unmounted

  class AutoDismissAlert {
    /** `props.id`: the id App gave this alert. */
    const id: AlertId
    /** `state.show`. */
    var show: bool
    /** `this.timeoutId`: the handle of the auto-close timer once mounted. */
    var timeoutId: Option<TimerHandle>
    var phase: Phase
    /** The timers this component scheduled that have neither fired nor been cleared. */
    var timers: map<TimerHandle, Timer>
    /** The handle the next `setTimeout` returns. */
    var nextHandle: TimerHandle

    ghost predicate Valid()
      reads this
    {
      && (forall h :: h in timers ==> h < nextHandle)
      && (phase == Constructed ==> show && timeoutId == None && timers == map[])
      && (phase != Constructed ==> timeoutId.Some?)
      // handles are never reused: the auto-close handle was handed out already
      && (timeoutId.Some? ==> timeoutId.value < nextHandle)
      // the only auto-close timer is the one in timeoutId, and only while mounted
      && (forall h :: h in timers && timers[h].callback == HandleCloseCallback ==>
            phase == Mounted && timeoutId == Some(h) && timers[h].delay == AutoCloseDelay)
      // a delete is scheduled only once hidden, and always for this alert's own id
      && (forall h :: h in timers && timers[h].callback.DeleteAlertCallback? ==>
            !show && timers[h].callback.alertId == id && timers[h].delay == FadeDelay
            && timeoutId != Some(h))
    }

    /** A new alert is shown and has no timer. */
    constructor (id: AlertId)
      ensures Valid()
      ensures this.id == id && show && timeoutId == None && phase == Constructed
      ensures timers == map[]
    {
      this.id := id;
      show := true;
      timeoutId := None;
      phase := Constructed;
      timers := map[];
      nextHandle := 0;
    }

    /** `componentDidMount`: schedules exactly one auto-close timer and keeps its handle. */
    method ComponentDidMount()
      requires Valid() && phase == Constructed
      modifies this
      ensures Valid()
      ensures old(nextHandle) <= nextHandle
      ensures phase == Mounted && show
      ensures timeoutId == Some(old(nextHandle))
      ensures timers == map[old(nextHandle) := Timer(AutoCloseDelay, HandleCloseCallback)]
    {
      timers := timers[nextHandle := Timer(AutoCloseDelay, HandleCloseCallback)];
      timeoutId := Some(nextHandle);
      nextHandle := nextHandle + 1;
      phase := Mounted;
    }

    /** `componentWillUnmount`: clears the auto-close timer (a no-op if it has
        fired already). Delete timers are not cleared. */
    method ComponentWillUnmount()
      requires Valid() && phase == Mounted
      modifies this
      ensures Valid()
      ensures old(nextHandle) <= nextHandle
      ensures phase == Unmounted && show == old(show) && timeoutId == old(timeoutId)
      ensures timers == old(timers) - {old(timeoutId).value}
      ensures forall h :: h in timers ==> timers[h].callback != HandleCloseCallback
      ensures forall h :: h in old(timers) && old(timers)[h].callback.DeleteAlertCallback? ==>
                h in timers && timers[h] == old(timers)[h]
    {
      timers := timers - {timeoutId.value};
      phase := Unmounted;
    }

    /** `render`: while hidden, schedules a timer that deletes this alert. */
    method Render()
      requires Valid() && phase != Unmounted
      modifies this
      ensures Valid()
      ensures old(nextHandle) <= nextHandle
      ensures show == old(show) && phase == old(phase) && timeoutId == old(timeoutId)
      ensures old(show) ==> timers == old(timers)
      ensures !old(show) ==> timers == old(timers)[old(nextHandle) := Timer(FadeDelay, DeleteAlertCallback(id))]
      ensures old(nextHandle) !in old(timers)
    {
      if !show {
        timers := timers[nextHandle := Timer(FadeDelay, DeleteAlertCallback(id))];
        nextHandle := nextHandle + 1;
      }
    }

    /** `handleClose`: hides the alert; React then renders it again, which
        schedules a delete. Only a mounted component can take the update. */
    method HandleClose()
      requires Valid() && phase == Mounted
      modifies this
      ensures Valid()
      ensures old(nextHandle) <= nextHandle
      ensures !show && phase == Mounted && timeoutId == old(timeoutId)
      ensures old(nextHandle) !in old(timers)
      ensures timers == old(timers)[old(nextHandle) := Timer(FadeDelay, DeleteAlertCallback(id))]
    {
      show := false;
      Render();
    }

    /** The close button of a mounted alert: the same `handleClose`. */
    method CloseClicked()
      requires Valid() && phase == Mounted
      modifies this
      ensures Valid()
      ensures old(nextHandle) <= nextHandle
      ensures !show && phase == Mounted && timeoutId == old(timeoutId)
      ensures timers == old(timers)[old(nextHandle) := Timer(FadeDelay, DeleteAlertCallback(id))]
    {
      HandleClose();
    }

    /** The timer with handle `h` fires. A handle that is not pending (cleared
        or fired already) does nothing. The auto-close timer runs `handleClose`;
        a delete timer returns the id to pass to App's `deleteAlert`. */
    method TimerFires(h: TimerHandle) returns (deleteRequest: Option<AlertId>)
      requires Valid()
      modifies this
      ensures Valid()
      ensures old(nextHandle) <= nextHandle
      ensures show ==> old(show)
      ensures phase == old(phase) && timeoutId == old(timeoutId)
      ensures h !in old(timers) ==>
                deleteRequest == None && show == old(show) && timers == old(timers)
      ensures h in old(timers) && old(timers)[h].callback == HandleCloseCallback ==>
                && old(phase) == Mounted
                && deleteRequest == None && !show
                && timers == (old(timers) - {h})[old(nextHandle) := Timer(FadeDelay, DeleteAlertCallback(id))]
      ensures h in old(timers) && old(timers)[h].callback.DeleteAlertCallback? ==>
                deleteRequest == Some(id) && show == old(show) && timers == old(timers) - {h}
      ensures deleteRequest.Some? ==> deleteRequest.value == id && !show
    {
      deleteRequest := None;
      if h in timers {
        var t := timers[h];
        timers := timers - {h};
        match t.callback
        case HandleCloseCallback =>
          HandleClose();
        case DeleteAlertCallback(i) =>
          deleteRequest := Some(i);
      }
    }
  }
}
