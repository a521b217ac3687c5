/**
 * The release-conditions screen (ReleaseConditions.jsx): the owner's
 * threshold settings, the activity status it shows, and the records it
 * writes on load, on save and on "release now".
 */
module ReleaseConditionsScreen {
  import opened Wrappers
  import opened Records
  import opened Storage
  import opened ReleaseService

  /** getDaysSinceActivity: 0 while no activity is known, otherwise whole days elapsed. */
  function DaysSinceActivity(lastActivity: int, now: int): (d: int)
    ensures lastActivity == 0 ==> d == 0
    ensures lastActivity != 0 ==> d * MsPerDay <= now - lastActivity < (d + 1) * MsPerDay
  {
    if lastActivity == 0 then 0 else DaysSince(now, lastActivity)
  }

  /** `Math.max(0, inactivityDays - daysSinceActivity)`. */
  function DaysUntilRelease(inactivityDays: int, daysSinceActivity: int): (r: int)
    ensures r >= 0
    ensures r == 0 <==> daysSinceActivity >= inactivityDays
    ensures r > 0 ==> daysSinceActivity + r == inactivityDays
  {
    if inactivityDays - daysSinceActivity > 0 then inactivityDays - daysSinceActivity else 0
  }

  /**
   * The screen and the service agree: for a known last activity, the
   * countdown shown reaches 0 exactly when the service's inactivity test passes.
   */
  lemma CountdownMatchesService(inactivityDays: int, lastActivity: int, now: int)
    requires lastActivity != 0
    ensures DaysUntilRelease(inactivityDays, DaysSinceActivity(lastActivity, now)) == 0
      <==> now - lastActivity >= inactivityDays * MsPerDay
  {
    DaysSinceAtLeast(now, lastActivity, inactivityDays);
  }

  /** The record handleSave writes: exactly the three settings, with no latch. */
  function SavedRecord(inactivityDays: int, requiredTrustees: int, lastActivity: int, now: int): Conditions
  {
    Conditions(inactivityDays, requiredTrustees, OrDefault(lastActivity, now), false, None)
  }

  /** The record handleReleaseNow writes: the three settings and the latch, whatever was stored. */
  function ReleaseNowRecord(inactivityDays: int, requiredTrustees: int, lastActivity: int, now: int): Conditions
  {
    Conditions(inactivityDays, requiredTrustees, OrDefault(lastActivity, now), true, Some(now))
  }

  /**
   * Saving after a release clears the latch: where the service would now
   * report "already released", after a save it releases again as soon as
   * there are enough trustees.
   */
  lemma SaveAfterReleaseReArms(inactivityDays: int, requiredTrustees: int, lastActivity: int, now: int, saveTime: int,
                               later: int, trusteeCount: nat)
    requires lastActivity != 0
    requires Evaluate(Some(ReleaseNowRecord(inactivityDays, requiredTrustees, lastActivity, now)), trusteeCount, later) == AlreadyReleased
    ensures Evaluate(Some(SavedRecord(inactivityDays, requiredTrustees, lastActivity, saveTime)), trusteeCount, later).Due?
      <==> trusteeCount >= 1 && trusteeCount >= OrDefault(requiredTrustees, 1)
  {
    var c := ReleaseNowRecord(inactivityDays, requiredTrustees, lastActivity, now);
    DaysSinceAtLeast(later, c.lastActivity, Threshold(c));
  }

  /** The component's state, bound to the store it reads and writes. */
  class Screen {
    const store: Store
    var inactivityDays: int
    var requiredTrustees: int
    /** 0 while unknown (`null`). */
    var lastActivity: int
    var loading: bool
    var notification: string
    var showReleaseModal: bool

    /** The initial state: 60 days, 1 trustee, nothing known yet. */
    constructor (store: Store)
      ensures this.store == store
      ensures inactivityDays == 60 && requiredTrustees == 1 && lastActivity == 0
      ensures loading && notification == "" && !showReleaseModal
    {
      this.store := store;
      inactivityDays, requiredTrustees, lastActivity := 60, 1, 0;
      loading, notification, showReleaseModal := true, "", false;
    }

    /**
     * loadConditions: a stored record fills the screen, with 60 days,
     * 1 trustee and now as defaults; with none, the default record is written.
     */
    method LoadConditions(now: int)
      requires store.Valid()
      modifies this, store
      ensures store.Valid()
      ensures store.pages == old(store.pages) && store.settings == old(store.settings) && store.trustees == old(store.trustees)
      ensures !loading && notification == old(notification) && showReleaseModal == old(showReleaseModal)
      ensures old(store.conditions).Some? ==>
        var c := old(store.conditions).value;
        && inactivityDays == OrDefault(c.inactivityDays, 60)
        && requiredTrustees == OrDefault(c.requiredTrustees, 1)
        && lastActivity == OrDefault(c.lastActivity, now)
        && store.conditions == old(store.conditions)
      ensures old(store.conditions).None? ==>
        && inactivityDays == old(inactivityDays) && requiredTrustees == old(requiredTrustees)
        && lastActivity == now
        && store.conditions == Some(Conditions(60, 1, now, false, None))
    {
      loading := true;
      var conditions := store.GetReleaseConditions();
      if conditions.Some? {
        inactivityDays := OrDefault(conditions.value.inactivityDays, 60);
        requiredTrustees := OrDefault(conditions.value.requiredTrustees, 1);
        lastActivity := OrDefault(conditions.value.lastActivity, now);
      } else {
        lastActivity := now;
        store.SaveReleaseConditions(Conditions(60, 1, now, false, None));
      }
      loading := false;
    }

    /** handleSave: writes the three settings; a stored latch is not carried over. */
    method HandleSave(now: int)
      requires store.Valid()
      modifies this, store
      ensures store.Valid()
      ensures store.pages == old(store.pages) && store.settings == old(store.settings) && store.trustees == old(store.trustees)
      ensures store.conditions == Some(SavedRecord(inactivityDays, requiredTrustees, lastActivity, now))
      ensures !store.conditions.value.released && store.conditions.value.releaseDate.None?
      ensures inactivityDays == old(inactivityDays) && requiredTrustees == old(requiredTrustees) && lastActivity == old(lastActivity)
      ensures notification == "Release conditions saved"
      ensures loading == old(loading) && showReleaseModal == old(showReleaseModal)
    {
      store.SaveReleaseConditions(Conditions(inactivityDays, requiredTrustees, OrDefault(lastActivity, now), false, None));
      notification := "Release conditions saved";
    }

    /**
     * handleReleaseNow: once confirmed, writes the latch with `releaseDate = now`
     * and opens the release screen, with no inactivity, trustee or latch check.
     */
    method HandleReleaseNow(confirmed: bool, now: int)
      requires store.Valid()
      modifies this, store
      ensures store.Valid()
      ensures store.pages == old(store.pages) && store.settings == old(store.settings) && store.trustees == old(store.trustees)
      ensures confirmed ==> store.conditions == Some(ReleaseNowRecord(inactivityDays, requiredTrustees, lastActivity, now)) && showReleaseModal
      ensures !confirmed ==> store.conditions == old(store.conditions) && showReleaseModal == old(showReleaseModal)
      ensures inactivityDays == old(inactivityDays) && requiredTrustees == old(requiredTrustees) && lastActivity == old(lastActivity)
      ensures loading == old(loading) && notification == old(notification)
    {
      if confirmed {
        var conditions := Conditions(inactivityDays, requiredTrustees, OrDefault(lastActivity, now), true, Some(now));
        store.SaveReleaseConditions(conditions);
        showReleaseModal := true;
      }
    }

    /** handleUpdateActivity: the store's record (if any) and the screen both take `now`. */
    method HandleUpdateActivity(now: int)
      requires store.Valid()
      modifies this, store
      ensures store.Valid()
      ensures store.pages == old(store.pages) && store.settings == old(store.settings) && store.trustees == old(store.trustees)
      ensures store.conditions == Touched(old(store.conditions), now)
      ensures lastActivity == now && notification == "Last activity updated"
      ensures inactivityDays == old(inactivityDays) && requiredTrustees == old(requiredTrustees)
      ensures loading == old(loading) && showReleaseModal == old(showReleaseModal)
    {
      store.UpdateLastActivity(now);
      lastActivity := now;
      notification := "Last activity updated";
    }

    /** The inactivity slider offers 7 to 365 days. */
    method SetInactivityDays(days: int)
      requires 7 <= days <= 365
      modifies this
      ensures inactivityDays == days
      ensures requiredTrustees == old(requiredTrustees) && lastActivity == old(lastActivity)
      ensures loading == old(loading) && notification == old(notification) && showReleaseModal == old(showReleaseModal)
    {
      inactivityDays := days;
    }

    /** The trustee slider offers 1 or 2. */
    method SetRequiredTrustees(count: int)
      requires 1 <= count <= 2
      modifies this
      ensures requiredTrustees == count
      ensures inactivityDays == old(inactivityDays) && lastActivity == old(lastActivity)
      ensures loading == old(loading) && notification == old(notification) && showReleaseModal == old(showReleaseModal)
    {
      requiredTrustees := count;
    }
  }
}
