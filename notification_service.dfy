/** The notification service: a single object that asks for notification permission, keeps an
    hourly workout-reminder interval, and watches device motion with a self re-arming
    inactivity check.

    The browser side it talks to is part of the object's state here: the timers that are
    active (handles drawn from one counter, as browsers share one pool for `setInterval` and
    `setTimeout`, each mapped to its delay in milliseconds), whether the `devicemotion`
    listener is registered, and the notifications shown so far. Time is an integer number of
    milliseconds passed in by the caller. */
module Notifications {
  import opened Common

  /** `Notification.permission` and the answers of `Notification.requestPermission()`. */
  datatype Permission = Granted | Denied | Default

  /** What `DeviceMotionEvent` offers: nothing, motion without asking, or motion behind
      `requestPermission()`; `granted` is false when that promise is refused or rejects. */
  datatype MotionSupport = Unsupported | Available | NeedsPermission(granted: bool)

  /** `event.acceleration`; an axis the device does not report is None. */
  datatype Acceleration = Acceleration(x: Option<real>, y: Option<real>, z: Option<real>)

  /** A notification as shown: title, body and the fixed icon and vibration pattern. */
  datatype Notice = Notice(title: string, body: string, icon: string, vibrate: seq<int>)

  const ReminderPeriod: nat := 60 * 60 * 1000
  const InactivityThreshold: int := 2 * 60 * 60 * 1000
  const InactivityCheckDelay: nat := 10 * 60 * 1000
  const MovementThreshold: real := 1.0

  const ReminderTitle := "Workout Reminder"
  const ReminderBody := "Take a few minutes to stretch or do a quick workout!"
  const MovementTitle := "Movement Reminder"
  const MovementBody := "You've been inactive for a while. Time to stretch and move around!"

  /** The notification `sendNotification` builds. */
  function MakeNotice(title: string, body: string): (n: Notice)
    ensures n.title == title && n.body == body
    ensures n.icon == "/favicon.ico" && n.vibrate == [100, 50, 100]
  {
    Notice(title, body, "/favicon.ico", [100, 50, 100])
  }

  // ----- Pure decisions -----

  /** `initialize`'s result and the new `permissionGranted`, given browser support, the current
      permission, the user's answer if asked, and the old flag. */
  datatype InitResult = InitResult(returned: bool, granted: bool)

  function InitializeOutcome(supported: bool, current: Permission, answer: Permission, oldGranted: bool): (r: InitResult)
    ensures !supported || current == Denied ==> !r.returned && r.granted == oldGranted
    ensures supported && current != Denied ==> r.returned == r.granted
    ensures supported && current != Denied ==> (r.granted <==> current == Granted || answer == Granted)
  {
    if !supported then InitResult(false, oldGranted)
    else if current == Granted then InitResult(true, true)
    else if current != Denied then InitResult(answer == Granted, answer == Granted)
    else InitResult(false, oldGranted)
  }

  /** `x || 0` for an axis. */
  function AxisOrZero(v: Option<real>): real {
    v.GetOr(0.0)
  }

  /** The squared magnitude the motion handler takes the root of; missing axes count as 0. */
  function MagnitudeSquared(a: Acceleration): (r: real)
    ensures r >= 0.0
    ensures r >= AxisOrZero(a.x) * AxisOrZero(a.x)
    ensures r >= AxisOrZero(a.y) * AxisOrZero(a.y)
    ensures r >= AxisOrZero(a.z) * AxisOrZero(a.z)
  {
    var x, y, z := AxisOrZero(a.x), AxisOrZero(a.y), AxisOrZero(a.z);
    assert x * x >= 0.0 && y * y >= 0.0 && z * z >= 0.0;
    x * x + y * y + z * z
  }

  /** For a non-negative root, exceeding the threshold is the same as its square exceeding it, so
      comparing the squared magnitude against 1 decides as `Math.sqrt(...) > 1.0` does. */
  lemma RootAboveThreshold(root: real)
    requires root >= 0.0
    ensures root > MovementThreshold <==> root * root > MovementThreshold * MovementThreshold
  {
    if root > 1.0 {
      assert root * root > root * 1.0;
    } else {
      assert root * root <= root * 1.0;
    }
  }

  /** Whether a motion sample counts as movement. */
  predicate SignificantMotion(a: Acceleration) {
    MagnitudeSquared(a) > MovementThreshold * MovementThreshold
  }

  /** Whether the inactivity check sends a reminder: strictly more than two hours without movement. */
  predicate InactivityDue(now: int, last: int) {
    now - last > InactivityThreshold
  }

  /** The last-movement time after an inactivity check at `now`. */
  function BaselineAfterCheck(now: int, last: int): (r: int)
    ensures InactivityDue(now, last) ==> r == now
    ensures !InactivityDue(now, last) ==> r == last
    ensures now - r <= InactivityThreshold
  {
    if InactivityDue(now, last) then now else last
  }

  /** A check right after a reminder never sends another one before two more hours pass. */
  lemma NoReminderRightAfterReset(now: int, last: int, later: int)
    requires InactivityDue(now, last)
    requires later - now <= InactivityThreshold
    ensures !InactivityDue(later, BaselineAfterCheck(now, last))
  {
  }

  // ----- The service -----

  class NotificationService {
    var permissionGranted: bool
    var notificationInterval: Option<nat>
    var motionTimeout: Option<nat>
    var lastMovementTimestamp: int
    /** Never assigned after construction. */
    const accelerometerWatchId: Option<nat>

    /** The browser side: active intervals and timeouts (handle to delay), the next handle,
        whether the motion listener is registered, and every notification shown. */
    var activeIntervals: map<nat, nat>
    var activeTimeouts: map<nat, nat>
    var nextHandle: nat
    var motionListener: bool
    var sent: seq<Notice>

    /** What every operation keeps: handles are positive and below the counter, the reminder
        interval is the only interval and is active, and the current inactivity timeout is active. */
    ghost predicate Valid()
      reads this
    {
      && nextHandle >= 1
      && (forall h :: h in activeIntervals ==> 1 <= h < nextHandle)
      && (forall h :: h in activeTimeouts ==> 1 <= h < nextHandle)
      && (forall h :: h in activeIntervals ==> h !in activeTimeouts)
      && activeIntervals == (if notificationInterval.Some? then map[notificationInterval.value := ReminderPeriod] else map[])
      && (motionTimeout.Some? ==> motionTimeout.value in activeTimeouts)
    }

    /** However often reminders are started, at most one reminder interval is active. */
    lemma AtMostOneReminderInterval()
      requires Valid()
      ensures |activeIntervals| <= 1
      ensures notificationInterval.None? <==> activeIntervals == map[]
    {
    }

    /** The private constructor; `now` is `Date.now()` at construction. */
    constructor (now: int)
      ensures Valid()
      ensures !permissionGranted && notificationInterval.None? && motionTimeout.None?
      ensures lastMovementTimestamp == now && accelerometerWatchId.None?
      ensures activeIntervals == map[] && activeTimeouts == map[] && !motionListener && sent == []
    {
      permissionGranted := false;
      notificationInterval := None;
      motionTimeout := None;
      lastMovementTimestamp := now;
      accelerometerWatchId := None;
      activeIntervals := map[];
      activeTimeouts := map[];
      nextHandle := 1;
      motionListener := false;
      sent := [];
    }

    /** `initialize`, with the promise resolved: `supported` is whether `Notification` exists,
        `current` the permission at the call, `answer` what the user replies if asked. */
    method Initialize(supported: bool, current: Permission, answer: Permission) returns (r: bool)
      requires Valid()
      modifies this`permissionGranted
      ensures Valid()
      ensures InitResult(r, permissionGranted) == InitializeOutcome(supported, current, answer, old(permissionGranted))
    {
      if !supported {
        return false;
      }
      if current == Granted {
        permissionGranted := true;
        return true;
      } else if current != Denied {
        permissionGranted := answer == Granted;
        return permissionGranted;
      }
      return false;
    }

    /** `sendNotification`: shown only while permission is granted. */
    method SendNotification(title: string, body: string)
      modifies this`sent
      ensures sent == if permissionGranted then old(sent) + [MakeNotice(title, body)] else old(sent)
    {
      if !permissionGranted {
        return;
      }
      sent := sent + [MakeNotice(title, body)];
    }

    /** `window.setInterval`: a fresh handle registered with its period. */
    method SetInterval(period: nat) returns (h: nat)
      modifies this`activeIntervals, this`nextHandle
      ensures h == old(nextHandle) && nextHandle == h + 1
      ensures activeIntervals == old(activeIntervals)[h := period]
    {
      h := nextHandle;
      nextHandle := nextHandle + 1;
      activeIntervals := activeIntervals[h := period];
    }

    /** `window.setTimeout`: a fresh handle registered with its delay. */
    method SetTimeout(delay: nat) returns (h: nat)
      modifies this`activeTimeouts, this`nextHandle
      ensures h == old(nextHandle) && nextHandle == h + 1
      ensures activeTimeouts == old(activeTimeouts)[h := delay]
    {
      h := nextHandle;
      nextHandle := nextHandle + 1;
      activeTimeouts := activeTimeouts[h := delay];
    }

    /** `startWorkoutReminders`: with permission, replace any reminder interval by a new hourly one. */
    method StartWorkoutReminders()
      requires Valid()
      modifies this`notificationInterval, this`activeIntervals, this`nextHandle
      ensures Valid()
      ensures !old(permissionGranted) ==> unchanged(this)
      ensures old(permissionGranted) ==>
                notificationInterval == Some(old(nextHandle)) && nextHandle == old(nextHandle) + 1
                && activeIntervals == map[old(nextHandle) := ReminderPeriod]
    {
      if !permissionGranted {
        return;
      }
      if notificationInterval.Some? {
        activeIntervals := activeIntervals - {notificationInterval.value};
      }
      var h := SetInterval(ReminderPeriod);
      notificationInterval := Some(h);
    }

    /** `stopWorkoutReminders`: clear the reminder interval and forget its handle. */
    method StopWorkoutReminders()
      requires Valid()
      modifies this`notificationInterval, this`activeIntervals
      ensures Valid()
      ensures notificationInterval.None? && activeIntervals == map[]
    {
      if notificationInterval.Some? {
        activeIntervals := activeIntervals - {notificationInterval.value};
        notificationInterval := None;
      }
    }

    /** The browser runs the reminder interval `h`: the callback sends the workout reminder. */
    method ReminderIntervalFires(h: nat)
      requires Valid() && h in activeIntervals
      modifies this`sent
      ensures Valid()
      ensures sent == if permissionGranted then old(sent) + [MakeNotice(ReminderTitle, ReminderBody)] else old(sent)
    {
      SendNotification(ReminderTitle, ReminderBody);
    }

    /** `setupAccelerometer`: reset the baseline to now and register the motion listener
        (adding the same listener twice registers it once). */
    method SetupAccelerometer(now: int)
      requires Valid()
      modifies this`lastMovementTimestamp, this`motionListener
      ensures Valid()
      ensures lastMovementTimestamp == now && motionListener
    {
      lastMovementTimestamp := now;
      motionListener := true;
    }

    /** `checkInactivity`: arm a new ten-minute timeout and remember its handle; an earlier
        timeout stays active. */
    method CheckInactivity()
      requires Valid()
      modifies this`motionTimeout, this`activeTimeouts, this`nextHandle
      ensures Valid()
      ensures motionTimeout == Some(old(nextHandle)) && nextHandle == old(nextHandle) + 1
      ensures activeTimeouts == old(activeTimeouts)[old(nextHandle) := InactivityCheckDelay]
    {
      var h := SetTimeout(InactivityCheckDelay);
      motionTimeout := Some(h);
    }

    /** `startMovementDetection` with the motion-permission promise settled at the call. */
    method StartMovementDetection(support: MotionSupport, now: int)
      requires Valid()
      modifies this`lastMovementTimestamp, this`motionListener, this`motionTimeout,
               this`activeTimeouts, this`nextHandle
      ensures Valid()
      ensures !old(permissionGranted) ==> unchanged(this)
      ensures old(permissionGranted) ==>
                motionTimeout == Some(old(nextHandle)) && nextHandle == old(nextHandle) + 1
                && activeTimeouts == old(activeTimeouts)[old(nextHandle) := InactivityCheckDelay]
      ensures old(permissionGranted) && (support.Available? || support == NeedsPermission(true)) ==>
                lastMovementTimestamp == now && motionListener
      ensures old(permissionGranted) && !(support.Available? || support == NeedsPermission(true)) ==>
                lastMovementTimestamp == old(lastMovementTimestamp) && motionListener == old(motionListener)
    {
      if !permissionGranted {
        return;
      }
      match support {
        case NeedsPermission(granted) =>
          if granted {
            SetupAccelerometer(now);
          }
        case Available =>
          SetupAccelerometer(now);
        case Unsupported =>
      }
      CheckInactivity();
    }

    /** `stopMovementDetection`: clear the current inactivity timeout. The listener is removed
        only when a watch id is set; the constructor leaves it None for good, so the listener
        stays registered. */
    method StopMovementDetection()
      requires Valid()
      modifies this`motionTimeout, this`activeTimeouts, this`motionListener
      ensures Valid()
      ensures motionTimeout.None?
      ensures activeTimeouts == if old(motionTimeout).Some? then old(activeTimeouts) - {old(motionTimeout).value} else old(activeTimeouts)
      ensures motionListener == (old(motionListener) && accelerometerWatchId.None?)
    {
      if motionTimeout.Some? {
        activeTimeouts := activeTimeouts - {motionTimeout.value};
        motionTimeout := None;
      }
      if accelerometerWatchId.Some? {
        motionListener := false;
      }
    }

    /** `handleMotion`: a sample with significant movement moves the baseline to now; a missing
        acceleration changes nothing. */
    method HandleMotion(acceleration: Option<Acceleration>, now: int)
      modifies this`lastMovementTimestamp
      ensures lastMovementTimestamp ==
                if acceleration.Some? && SignificantMotion(acceleration.value) then now else old(lastMovementTimestamp)
    {
      if acceleration.None? {
        return;
      }
      if SignificantMotion(acceleration.value) {
        lastMovementTimestamp := now;
      }
    }

    /** The browser dispatches a `devicemotion` event: only a registered listener sees it. */
    method DeliverMotionEvent(acceleration: Option<Acceleration>, now: int)
      requires Valid()
      modifies this`lastMovementTimestamp
      ensures Valid()
      ensures lastMovementTimestamp ==
                if motionListener && acceleration.Some? && SignificantMotion(acceleration.value) then now
                else old(lastMovementTimestamp)
    {
      if motionListener {
        HandleMotion(acceleration, now);
      }
    }

    /** The browser runs inactivity timeout `h` at time `now`: the callback sends the movement
        reminder after more than two hours without movement and resets the baseline, then always
        arms the next check. */
    method InactivityCheckFires(h: nat, now: int)
      requires Valid() && h in activeTimeouts
      modifies this`sent, this`lastMovementTimestamp, this`motionTimeout, this`activeTimeouts, this`nextHandle
      ensures Valid()
      ensures lastMovementTimestamp == BaselineAfterCheck(now, old(lastMovementTimestamp))
      ensures now - lastMovementTimestamp <= InactivityThreshold
      ensures sent == if InactivityDue(now, old(lastMovementTimestamp)) && permissionGranted
                      then old(sent) + [MakeNotice(MovementTitle, MovementBody)] else old(sent)
      ensures motionTimeout == Some(old(nextHandle)) && nextHandle == old(nextHandle) + 1
      ensures activeTimeouts == (old(activeTimeouts) - {h})[old(nextHandle) := InactivityCheckDelay]
    {
      activeTimeouts := activeTimeouts - {h};
      if motionTimeout == Some(h) {
        // The handle of a timeout that has run no longer names an active timer.
        motionTimeout := None;
      }
      var currentTime := now;
      var timeSinceLastMovement := currentTime - lastMovementTimestamp;
      if timeSinceLastMovement > InactivityThreshold {
        SendNotification(MovementTitle, MovementBody);
        lastMovementTimestamp := currentTime;
      }
      CheckInactivity();
    }
  }

  /** The class-level `instance` slot behind `getInstance`. */
  class ServiceRegistry {
    var instance: Option<NotificationService>

    constructor ()
      ensures instance.None?
    {
      instance := None;
    }

    /** `getInstance`: create the service on first use, then always return that same object. */
    method GetInstance(now: int) returns (s: NotificationService)
      modifies this
      ensures old(instance).Some? ==> s == old(instance).value && instance == old(instance)
      ensures old(instance).None? ==> fresh(s) && s.Valid() && s.lastMovementTimestamp == now && !s.permissionGranted
      ensures instance == Some(s)
    {
      if instance.Some? {
        return instance.value;
      }
      s := new NotificationService(now);
      instance := Some(s);
    }
  }
}
