/**
 * releaseService.js: the automatic release of the bundle to the trustees
 * once the owner has been inactive long enough, and the periodic backup
 * e-mail.
 *
 * Both run against the store and the mailer. The decision each one takes is
 * a pure function of what they read (`Evaluate`, `EvaluateBackup`), and the
 * methods are proved to act on that decision.
 */
module ReleaseService {
  import opened Wrappers
  import opened Records
  import opened JsText
  import opened Storage
  import opened Bundle
  import opened Mail

  /** `Math.floor((now - since) / (1000 * 60 * 60 * 24))`: for a positive divisor, the floor is Dafny's `/`. */
  function DaysSince(now: int, since: int): int
  {
    (now - since) / MsPerDay
  }

  /** Whole days elapsed reach `n` exactly when `n` days' worth of milliseconds have elapsed. */
  lemma DaysSinceAtLeast(now: int, since: int, n: int)
    ensures DaysSince(now, since) >= n <==> now - since >= n * MsPerDay
  {
    var x := now - since;
    var q := x / MsPerDay;
    var r := x % MsPerDay;
    assert x == q * MsPerDay + r && 0 <= r < MsPerDay;
    if q >= n {
      assert q * MsPerDay >= n * MsPerDay;
    } else {
      assert q * MsPerDay <= (n - 1) * MsPerDay;
    }
  }

  /** Elapsed days never decrease as the clock moves forward. */
  lemma DaysSinceMonotonic(now: int, later: int, since: int)
    requires now <= later
    ensures DaysSince(now, since) <= DaysSince(later, since)
  {
    DaysSinceAtLeast(later, since, DaysSince(now, since));
    DaysSinceAtLeast(now, since, DaysSince(now, since));
  }

  /* ---------------- The release decision ---------------- */

  /** What checkAndProcessReleaseConditions decides, in the order it checks. */
  datatype Decision =
    | NotConfigured
    | NotYetDue(days: int, need: int)
    | AlreadyReleased
    | NoTrustees
    | TooFewTrustees(need: int, have: int)
    | Due(days: int, need: int)

  /** The threshold in days: `inactivityDays || 60`. */
  function Threshold(c: Conditions): int
  {
    OrDefault(c.inactivityDays, 60)
  }

  /** The trustees required: `requiredTrustees || 1`. */
  function RequiredTrustees(c: Conditions): int
  {
    OrDefault(c.requiredTrustees, 1)
  }

  function Evaluate(cond: Option<Conditions>, trusteeCount: nat, now: int): (d: Decision)
    ensures d.Due? <==>
      && cond.Some? && cond.value.lastActivity != 0
      && now - cond.value.lastActivity >= Threshold(cond.value) * MsPerDay
      && !cond.value.released
      && trusteeCount >= 1 && trusteeCount >= RequiredTrustees(cond.value)
    ensures d.Due? ==> d.days == DaysSince(now, cond.value.lastActivity) && d.need == Threshold(cond.value) && d.days >= d.need
    ensures d == NotConfigured <==> cond.None? || cond.value.lastActivity == 0
    ensures d == AlreadyReleased ==> cond.value.released
    ensures d.NotYetDue? ==> d.days < d.need
  {
    if cond.None? || cond.value.lastActivity == 0 then NotConfigured
    else
      var c := cond.value;
      var days := DaysSince(now, c.lastActivity);
      DaysSinceAtLeast(now, c.lastActivity, Threshold(c));
      if days < Threshold(c) then NotYetDue(days, Threshold(c))
      else if c.released then AlreadyReleased
      else if trusteeCount == 0 then NoTrustees
      else if trusteeCount < RequiredTrustees(c) then TooFewTrustees(RequiredTrustees(c), trusteeCount)
      else Due(days, Threshold(c))
  }

  /** The `reason` reported when nothing is released. */
  function Reason(d: Decision): string
  {
    match d
    case NotConfigured => "No release conditions configured"
    case NotYetDue(days, need) => "Only " + IntToString(days) + " days since last activity (need " + IntToString(need) + ")"
    case AlreadyReleased => "Information already released"
    case NoTrustees => "No trustees configured"
    case TooFewTrustees(need, have) => "Need " + IntToString(need) + " trustee(s), but only " + IntToString(have) + " configured"
    case Due(_, _) => ""
  }

  /**
   * The threshold is inclusive: with everything else in place, the release
   * is due exactly `n` days after the last activity and not a millisecond before.
   */
  lemma ThresholdIsInclusive(c: Conditions, trusteeCount: nat)
    requires c.lastActivity != 0 && !c.released
    requires trusteeCount >= 1 && trusteeCount >= RequiredTrustees(c)
    ensures Evaluate(Some(c), trusteeCount, c.lastActivity + Threshold(c) * MsPerDay).Due?
    ensures Evaluate(Some(c), trusteeCount, c.lastActivity + Threshold(c) * MsPerDay - 1)
      == NotYetDue(Threshold(c) - 1, Threshold(c))
  {
    var before := c.lastActivity + Threshold(c) * MsPerDay - 1;
    DaysSinceAtLeast(before, c.lastActivity, Threshold(c));
    DaysSinceAtLeast(before, c.lastActivity, Threshold(c) - 1);
  }

  /** The latch written after a release: `released = true`, `releaseDate = now`. */
  function MarkReleased(c: Conditions, now: int): (r: Conditions)
    ensures r.released && r.releaseDate == Some(now)
    ensures r.inactivityDays == c.inactivityDays && r.requiredTrustees == c.requiredTrustees && r.lastActivity == c.lastActivity
  {
    c.(released := true, releaseDate := Some(now))
  }

  /**
   * Once the latch is written, no later evaluation releases again, whatever
   * the trustees are: the owner must act (update activity) first.
   */
  lemma ReleaseIsLatched(c: Conditions, trusteeCount: nat, now: int, later: int, laterCount: nat)
    requires Evaluate(Some(c), trusteeCount, now).Due?
    requires now <= later
    ensures Evaluate(Some(MarkReleased(c, now)), laterCount, later) == AlreadyReleased
  {
    DaysSinceMonotonic(now, later, c.lastActivity);
  }

  /**
   * Without the latch the conditions stay as they were, and every later
   * evaluation with the same trustees is due again.
   */
  lemma UnlatchedReleaseRepeats(c: Conditions, trusteeCount: nat, now: int, later: int)
    requires Evaluate(Some(c), trusteeCount, now).Due?
    requires now <= later
    ensures Evaluate(Some(c), trusteeCount, later).Due?
  {
    DaysSinceMonotonic(now, later, c.lastActivity);
  }

  /**
   * updateLastActivity takes any timestamp, so it can move the last activity
   * backwards: a record that is not yet due becomes due at the same moment
   * once touched with an earlier (non-null) timestamp.
   */
  lemma TouchIsNotMonotonic(c: Conditions, trusteeCount: nat, now: int, t: int)
    requires c.lastActivity != 0 && !c.released
    requires trusteeCount >= 1 && trusteeCount >= RequiredTrustees(c)
    requires now - c.lastActivity < Threshold(c) * MsPerDay
    requires 0 < t && now - t >= Threshold(c) * MsPerDay
    ensures t < c.lastActivity
    ensures !Evaluate(Some(c), trusteeCount, now).Due?
    ensures Evaluate(Touched(Some(c), t), trusteeCount, now).Due?
  {
  }

  /* ---------------- The e-mail ---------------- */

  const AutoReleaseNotice := "This information has been automatically released due to inactivity."

  const ReleaseSubject := "Legacy Organizer - Automatic Information Release"

  const Greeting := "Dear Trustee(s),\n\n"

  const Closing := "Best regards,\nLegacy Organizer"

  /** The e-mail text between the template's leading newline and its trailing indentation. */
  function ReleaseEmailText(days: int, need: int, dateLine: string, formattedData: string): string
  {
    Greeting + ReleaseEmailMiddle(days, need, dateLine, formattedData) + Closing
  }

  /* The fixed sentences of the template, in the order they appear. */
  const Intro := "This email contains automatically released information from Legacy Organizer.\n\n"
  const InactiveFor := "The account owner has been inactive for "
  const ConditionsMet := " days), and the release conditions have been met.\n\n"
  const FindBelow := "Please find the information below. This information was automatically released on "
  const KeepSecure := "Please keep this information secure and confidential.\n\n"
  const ReleasedOn := "This information was automatically released on "
  const DaysOfInactivity := " days of inactivity.\n\n"

  function ReleaseEmailMiddle(days: int, need: int, dateLine: string, formattedData: string): string
  {
    Intro
    + InactiveFor + IntToString(days) + " days (threshold: " + IntToString(need) + ConditionsMet
    + FindBelow + dateLine + ".\n\n"
    + KeepSecure
    + "---\n" + formattedData + "\n---\n\n"
    + ReleasedOn + dateLine + " due to " + IntToString(days) + DaysOfInactivity
  }

  /** The template literal as written: a newline, the text, a newline and the source's indentation. */
  function ReleaseEmailTemplate(days: int, need: int, dateLine: string, formattedData: string): string
  {
    "\n" + ReleaseEmailText(days, need, dateLine, formattedData) + "\n    "
  }

  /** `.trim()` removes exactly the template's padding. */
  lemma ReleaseEmailTrimmed(days: int, need: int, dateLine: string, formattedData: string)
    ensures Trim(ReleaseEmailTemplate(days, need, dateLine, formattedData)) == ReleaseEmailText(days, need, dateLine, formattedData)
  {
    assert Greeting[0] == 'D' && Closing[|Closing| - 1] == 'r';
    assert !IsWhitespace('D') && !IsWhitespace('r');
    TrimTemplatePadding(Greeting, ReleaseEmailMiddle(days, need, dateLine, formattedData), Closing);
  }

  lemma TrimTemplatePadding(first: string, middle: string, last: string)
    requires first != [] && !IsWhitespace(first[0])
    requires last != [] && !IsWhitespace(last[|last| - 1])
    ensures Trim("\n" + (first + middle + last) + "\n    ") == first + middle + last
  {
    var t := first + middle + last;
    assert t[0] == first[0] && t[|t| - 1] == last[|last| - 1];
    assert AllWhitespace("\n");
    assert AllWhitespace("\n    ");
    TrimPadded("\n", t, "\n    ");
  }

  /** The body of the release e-mail: the template literal, trimmed. */
  method ComposeReleaseEmail(days: int, need: int, dateLine: string, formattedData: string) returns (body: string)
    ensures body == ReleaseEmailText(days, need, dateLine, formattedData)
  {
    ReleaseEmailTrimmed(days, need, dateLine, formattedData);
    body := Trim(ReleaseEmailTemplate(days, need, dateLine, formattedData));
  }

  /** One e-mail per trustee, in the order listed, all with the same sender, subject and body. */
  function Notifications(ts: seq<Trustee>, fromEmail: string, subject: string, body: string): (ms: seq<Message>)
    ensures |ms| == |ts|
    ensures forall i :: 0 <= i < |ts| ==> ms[i] == Mail(fromEmail, ts[i].email, subject, body)
  {
    seq(|ts|, i requires 0 <= i < |ts| => Mail(fromEmail, ts[i].email, subject, body))
  }

  /** One entry of `results`: `{trustee: name, success, error}`. */
  datatype TrusteeResult = TrusteeResult(trustee: string, success: bool, error: string)

  /** What checkAndProcessReleaseConditions returns. */
  datatype ReleaseOutcome =
    | NotReleased(reason: string)
    | Released(results: seq<TrusteeResult>, daysSinceActivity: int)

  /**
   * `results` holds, for each trustee in order, the name and the proxy's
   * answer at position `start + i` of the mailer's `answers`.
   */
  predicate Answers(results: seq<TrusteeResult>, ts: seq<Trustee>, answers: seq<SendResult>, start: nat)
  {
    && |results| == |ts| && start + |ts| <= |answers|
    && forall i :: 0 <= i < |ts| ==>
         results[i] == TrusteeResult(ts[i].name, answers[start + i].success, answers[start + i].error)
  }

  /** The message a ReferenceError for the missing import carries. */
  const MissingSaveError := "Error: saveReleaseConditions is not defined"

  /* ---------------- The release as the source runs it ---------------- */

  /** Sends the e-mail to each trustee in turn, collecting each answer; a failed send does not stop the loop. */
  method NotifyTrustees(store: Store, mailer: Mailer, trustees: seq<Trustee>, subject: string, body: string)
    returns (results: seq<TrusteeResult>)
    modifies mailer
    ensures unchanged(store)
    ensures mailer.sent == old(mailer.sent) + Notifications(trustees, ResendFromEmailOf(store.settings), subject, body)
    ensures Answers(results, trustees, mailer.answers, |old(mailer.answers)|)
  {
    results := [];
    ghost var fromEmail := ResendFromEmailOf(store.settings);
    for i := 0 to |trustees|
      invariant mailer.sent == old(mailer.sent) + Notifications(trustees[..i], fromEmail, subject, body)
      invariant |results| == i
      invariant |mailer.answers| == |old(mailer.answers)| + i
      invariant Answers(results, trustees[..i], mailer.answers, |old(mailer.answers)|)
    {
      var trustee := trustees[i];
      var result := mailer.SendEmail(store, trustee.email, subject, body);
      results := results + [TrusteeResult(trustee.name, result.success, result.error)];
      assert trustees[..i + 1] == trustees[..i] + [trustee];
      assert Notifications(trustees[..i + 1], fromEmail, subject, body)
        == Notifications(trustees[..i], fromEmail, subject, body) + [Mail(fromEmail, trustee.email, subject, body)];
    }
    assert trustees[..|trustees|] == trustees;
  }

  /**
   * Everything of checkAndProcessReleaseConditions up to and including the
   * sends: the checks in the source's order, then, when due, the bundle and
   * one e-mail per trustee. The store is only read.
   */
  method EvaluateAndNotify(store: Store, mailer: Mailer, decrypt: Page -> Option<Entry>, now: int, dateLine: string)
    returns (decision: Decision, conditions: Option<Conditions>, results: seq<TrusteeResult>,
             ghost listed: seq<Trustee>, ghost trusteeKeys: seq<string>,
             ghost pagesListed: seq<Page>, ghost pageKeys: seq<string>)
    requires store.Valid()
    modifies mailer
    ensures unchanged(store)
    ensures conditions == store.conditions
    ensures decision == Evaluate(store.conditions, |store.trustees|, now)
    ensures !decision.Due? ==> mailer.sent == old(mailer.sent) && results == []
    ensures decision.Due? ==> Listing(listed, trusteeKeys, store.trustees) && Listing(pagesListed, pageKeys, store.pages)
    ensures decision.Due? ==>
      var body := ReleaseEmailText(decision.days, decision.need, dateLine, Render(AutoReleaseNotice, dateLine, pagesListed, decrypt));
      mailer.sent == old(mailer.sent) + Notifications(listed, ResendFromEmailOf(store.settings), ReleaseSubject, body)
    ensures decision.Due? ==> Answers(results, listed, mailer.answers, |old(mailer.answers)|)
  {
    var trustees;
    decision, conditions, trustees, trusteeKeys := Decide(store, now);
    results, listed, pagesListed, pageKeys := [], [], [], [];
    if decision.Due? {
      listed := trustees;
      var pages;
      pages, pageKeys := store.GetAllPages();
      pagesListed := pages;
      results := SendRelease(store, mailer, trustees, pages, decrypt, decision.days, decision.need, dateLine);
    }
  }

  /**
   * The checks of checkAndProcessReleaseConditions, in the source's order;
   * the trustees are read only once the conditions and the inactivity
   * period have passed.
   */
  method Decide(store: Store, now: int)
    returns (decision: Decision, conditions: Option<Conditions>, trustees: seq<Trustee>, ghost trusteeKeys: seq<string>)
    requires store.Valid()
    ensures conditions == store.conditions
    ensures decision == Evaluate(store.conditions, |store.trustees|, now)
    ensures decision.Due? ==> Listing(trustees, trusteeKeys, store.trustees)
  {
    trustees, trusteeKeys := [], [];
    conditions := store.GetReleaseConditions();
    if conditions.None? || conditions.value.lastActivity == 0 {
      decision := NotConfigured;
      return;
    }
    var c := conditions.value;
    var daysSinceActivity := DaysSince(now, c.lastActivity);
    var inactivityDays := OrDefault(c.inactivityDays, 60);
    if daysSinceActivity < inactivityDays {
      decision := NotYetDue(daysSinceActivity, inactivityDays);
      return;
    }
    if c.released {
      decision := AlreadyReleased;
      return;
    }
    trustees, trusteeKeys := store.GetTrustees();
    assert |trustees| == |store.trustees|;
    if |trustees| == 0 {
      decision := NoTrustees;
      return;
    }
    var requiredTrustees := OrDefault(c.requiredTrustees, 1);
    if |trustees| < requiredTrustees {
      decision := TooFewTrustees(requiredTrustees, |trustees|);
      return;
    }
    decision := Due(daysSinceActivity, inactivityDays);
  }

  /**
   * The release itself: the pages rendered as the bundle under the
   * automatic-release notice, inside the trimmed template, then one e-mail
   * to each trustee.
   */
  method SendRelease(store: Store, mailer: Mailer, trustees: seq<Trustee>, pages: seq<Page>, decrypt: Page -> Option<Entry>,
                     days: int, need: int, dateLine: string)
    returns (results: seq<TrusteeResult>)
    modifies mailer
    ensures unchanged(store)
    ensures mailer.sent == old(mailer.sent) + Notifications(trustees, ResendFromEmailOf(store.settings), ReleaseSubject,
      ReleaseEmailText(days, need, dateLine, Render(AutoReleaseNotice, dateLine, pages, decrypt)))
    ensures Answers(results, trustees, mailer.answers, |old(mailer.answers)|)
  {
    var formattedData := RenderBundle(AutoReleaseNotice, dateLine, pages, decrypt);
    var emailBody := ComposeReleaseEmail(days, need, dateLine, formattedData);
    results := NotifyTrustees(store, mailer, trustees, ReleaseSubject, emailBody);
  }

  /**
   * checkAndProcessReleaseConditions with the latch written: when due, every
   * trustee is e-mailed and the conditions record is marked released.
   */
  method CheckAndProcessReleaseConditions(store: Store, mailer: Mailer, decrypt: Page -> Option<Entry>, now: int, dateLine: string)
    returns (outcome: ReleaseOutcome, ghost listed: seq<Trustee>, ghost trusteeKeys: seq<string>,
             ghost pagesListed: seq<Page>, ghost pageKeys: seq<string>)
    requires store.Valid()
    modifies store, mailer
    ensures store.Valid()
    ensures store.pages == old(store.pages) && store.settings == old(store.settings) && store.trustees == old(store.trustees)
    ensures var d := Evaluate(old(store.conditions), |old(store.trustees)|, now);
      !d.Due? ==> outcome == NotReleased(Reason(d)) && store.conditions == old(store.conditions) && mailer.sent == old(mailer.sent)
    ensures var d := Evaluate(old(store.conditions), |old(store.trustees)|, now);
      d.Due? ==>
        && store.conditions == Some(MarkReleased(old(store.conditions).value, now))
        && outcome.Released? && outcome.daysSinceActivity == d.days
        && Listing(listed, trusteeKeys, old(store.trustees)) && Listing(pagesListed, pageKeys, old(store.pages))
        && Answers(outcome.results, listed, mailer.answers, |old(mailer.answers)|)
        && mailer.sent == old(mailer.sent) + Notifications(listed, ResendFromEmailOf(old(store.settings)), ReleaseSubject,
             ReleaseEmailText(d.days, d.need, dateLine, Render(AutoReleaseNotice, dateLine, pagesListed, decrypt)))
  {
    var decision, conditions, results;
    decision, conditions, results, listed, trusteeKeys, pagesListed, pageKeys := EvaluateAndNotify(store, mailer, decrypt, now, dateLine);
    if decision.Due? {
      store.SaveReleaseConditions(MarkReleased(conditions.value, now));
      outcome := Released(results, decision.days);
    } else {
      outcome := NotReleased(Reason(decision));
    }
  }

  /**
   * checkAndProcessReleaseConditions as written: saveReleaseConditions is
   * called but never imported, so after the e-mails have gone out the call
   * throws, the catch turns it into a failure, and the latch is never stored.
   */
  method CheckAndProcessReleaseAsWritten(store: Store, mailer: Mailer, decrypt: Page -> Option<Entry>, now: int, dateLine: string)
    returns (outcome: ReleaseOutcome, ghost listed: seq<Trustee>, ghost trusteeKeys: seq<string>,
             ghost pagesListed: seq<Page>, ghost pageKeys: seq<string>)
    requires store.Valid()
    modifies mailer
    ensures var d := Evaluate(store.conditions, |store.trustees|, now);
      !d.Due? ==> outcome == NotReleased(Reason(d)) && mailer.sent == old(mailer.sent)
    ensures var d := Evaluate(store.conditions, |store.trustees|, now);
      d.Due? ==>
        && outcome == NotReleased(MissingSaveError)
        && Listing(listed, trusteeKeys, store.trustees) && Listing(pagesListed, pageKeys, store.pages)
        && mailer.sent == old(mailer.sent) + Notifications(listed, ResendFromEmailOf(store.settings), ReleaseSubject,
             ReleaseEmailText(d.days, d.need, dateLine, Render(AutoReleaseNotice, dateLine, pagesListed, decrypt)))
  {
    var decision, conditions, results;
    decision, conditions, results, listed, trusteeKeys, pagesListed, pageKeys := EvaluateAndNotify(store, mailer, decrypt, now, dateLine);
    if decision.Due? {
      outcome := NotReleased(MissingSaveError);
    } else {
      outcome := NotReleased(Reason(decision));
    }
  }

  /** The release e-mails of one due evaluation: to each of `listed`, the bundle of `pagesListed`. */
  function ReleaseBatch(settings: Option<Settings>, decrypt: Page -> Option<Entry>, days: int, need: int, dateLine: string,
                        listed: seq<Trustee>, pagesListed: seq<Page>): seq<Message>
  {
    Notifications(listed, ResendFromEmailOf(settings), ReleaseSubject,
      ReleaseEmailText(days, need, dateLine, Render(AutoReleaseNotice, dateLine, pagesListed, decrypt)))
  }

  /**
   * Two evaluations as written, the second at a later time: when the first
   * is due, the second is due too and e-mails every stored trustee the
   * bundle of every stored page again.
   */
  method RepeatedReleaseAsWritten(store: Store, mailer: Mailer, decrypt: Page -> Option<Entry>, now: int, later: int, dateLine: string)
    returns (second: ReleaseOutcome,
             ghost listed: seq<Trustee>, ghost trusteeKeys: seq<string>, ghost pagesListed: seq<Page>, ghost pageKeys: seq<string>,
             ghost listed2: seq<Trustee>, ghost trusteeKeys2: seq<string>, ghost pagesListed2: seq<Page>, ghost pageKeys2: seq<string>)
    requires store.Valid() && now <= later
    requires Evaluate(store.conditions, |store.trustees|, now).Due?
    modifies mailer
    ensures second == NotReleased(MissingSaveError)
    ensures Listing(listed, trusteeKeys, store.trustees) && Listing(pagesListed, pageKeys, store.pages)
    ensures Listing(listed2, trusteeKeys2, store.trustees) && Listing(pagesListed2, pageKeys2, store.pages)
    ensures var d1, d2 := Evaluate(store.conditions, |store.trustees|, now), Evaluate(store.conditions, |store.trustees|, later);
      && d1.Due? && d2.Due?
      && mailer.sent == old(mailer.sent)
           + ReleaseBatch(store.settings, decrypt, d1.days, d1.need, dateLine, listed, pagesListed)
           + ReleaseBatch(store.settings, decrypt, d2.days, d2.need, dateLine, listed2, pagesListed2)
    ensures |mailer.sent| == |old(mailer.sent)| + 2 * |store.trustees|
  {
    var first;
    first, listed, trusteeKeys, pagesListed, pageKeys := CheckAndProcessReleaseAsWritten(store, mailer, decrypt, now, dateLine);
    UnlatchedReleaseRepeats(store.conditions.value, |store.trustees|, now, later);
    second, listed2, trusteeKeys2, pagesListed2, pageKeys2 := CheckAndProcessReleaseAsWritten(store, mailer, decrypt, later, dateLine);
  }

  /**
   * The same two evaluations with the latch written: the mailer receives the
   * first batch only, so the second check sends nothing.
   */
  method RepeatedRelease(store: Store, mailer: Mailer, decrypt: Page -> Option<Entry>, now: int, later: int, dateLine: string)
    returns (second: ReleaseOutcome,
             ghost listed: seq<Trustee>, ghost trusteeKeys: seq<string>, ghost pagesListed: seq<Page>, ghost pageKeys: seq<string>)
    requires store.Valid() && now <= later
    requires Evaluate(store.conditions, |store.trustees|, now).Due?
    modifies store, mailer
    ensures Listing(listed, trusteeKeys, old(store.trustees)) && Listing(pagesListed, pageKeys, old(store.pages))
    ensures var d := Evaluate(old(store.conditions), |old(store.trustees)|, now);
      mailer.sent == old(mailer.sent) + ReleaseBatch(old(store.settings), decrypt, d.days, d.need, dateLine, listed, pagesListed)
    ensures |mailer.sent| == |old(mailer.sent)| + |store.trustees|
    ensures second == NotReleased("Information already released")
  {
    ghost var c := store.conditions.value;
    var first;
    first, listed, trusteeKeys, pagesListed, pageKeys := CheckAndProcessReleaseConditions(store, mailer, decrypt, now, dateLine);
    ReleaseIsLatched(c, |store.trustees|, now, later, |store.trustees|);
    ghost var listed2, trusteeKeys2, pagesListed2, pageKeys2;
    second, listed2, trusteeKeys2, pagesListed2, pageKeys2 := CheckAndProcessReleaseConditions(store, mailer, decrypt, later, dateLine);
  }

  /* ---------------- The backup e-mail ---------------- */

  datatype BackupDecision =
    | NoBackupConfigured
    | NotDue(days: int, frequency: int)
    | BackupDue

  /** The backup period in days: `frequency || 30`. */
  function Frequency(b: BackupEmail): int
  {
    OrDefault(b.frequency, 30)
  }

  /** What checkAndSendBackup decides: due when never sent, or when at least `frequency` whole days have passed. */
  function EvaluateBackup(b: Option<BackupEmail>, now: int): (d: BackupDecision)
    ensures d.BackupDue? <==>
      && b.Some? && b.value.email != ""
      && (b.value.lastSent == 0 || now - b.value.lastSent >= Frequency(b.value) * MsPerDay)
    ensures d == NoBackupConfigured <==> b.None? || b.value.email == ""
    ensures d.NotDue? ==> d.days == DaysSince(now, b.value.lastSent) && d.days < d.frequency
  {
    if b.None? || b.value.email == "" then NoBackupConfigured
    else if b.value.lastSent != 0 && DaysSince(now, b.value.lastSent) < Frequency(b.value) then
      DaysSinceAtLeast(now, b.value.lastSent, Frequency(b.value));
      NotDue(DaysSince(now, b.value.lastSent), Frequency(b.value))
    else
      DaysSinceAtLeast(now, b.value.lastSent, Frequency(b.value));
      BackupDue
  }

  function BackupReason(d: BackupDecision): string
  {
    match d
    case NoBackupConfigured => "No backup email configured"
    case NotDue(days, frequency) =>
      "Last backup sent " + IntToString(days) + " days ago (frequency: " + IntToString(frequency) + " days)"
    case BackupDue => ""
  }

  /** What checkAndSendBackup returns. */
  datatype BackupOutcome =
    | NotSent(reason: string)
    | Attempted(sent: bool, error: string)

  /** `legacy-backup-${new Date().toISOString().split('T')[0]}.legacy`. */
  function BackupFilename(isoTimestamp: string): (f: string)
    ensures |f| >= 21 && f[..14] == "legacy-backup-" && f[|f| - 7..] == ".legacy"
  {
    "legacy-backup-" + Split(isoTimestamp, 'T')[0] + ".legacy"
  }

  /** The file is named after the date part of the ISO timestamp. */
  lemma BackupFilenameIsDate(date: string, time: string)
    requires 'T' !in date
    ensures BackupFilename(date + "T" + time) == "legacy-backup-" + date + ".legacy"
  {
    SplitAfter(date, 'T', time);
  }

  /** After a successful send at `now`, no backup is due again until `frequency` days have passed. */
  lemma BackupNotRepeatedWithinFrequency(b: BackupEmail, now: int, later: int)
    requires b.email != "" && now != 0
    requires now <= later < now + Frequency(b) * MsPerDay
    ensures EvaluateBackup(Some(b.(lastSent := now)), later).NotDue?
  {
  }

  /** ... and it is due again once they have. */
  lemma BackupDueAfterFrequency(b: BackupEmail, now: int, later: int)
    requires b.email != ""
    requires later >= now + Frequency(b) * MsPerDay
    ensures EvaluateBackup(Some(b.(lastSent := now)), later).BackupDue?
  {
  }

  /**
   * checkAndSendBackup: when due, e-mails the pages and the settings record
   * (not the trustees or the release conditions) and records the time of
   * sending only when the send succeeded, so a failed send is retried on the
   * next check.
   */
  method CheckAndSendBackup(store: Store, mailer: Mailer, now: int, isoTimestamp: string)
    returns (outcome: BackupOutcome, ghost pagesListed: seq<Page>, ghost pageKeys: seq<string>)
    requires store.Valid()
    modifies store, mailer
    ensures store.Valid()
    ensures store.pages == old(store.pages) && store.trustees == old(store.trustees) && store.conditions == old(store.conditions)
    ensures var d := EvaluateBackup(BackupEmailOf(old(store.settings)), now);
      !d.BackupDue? ==> outcome == NotSent(BackupReason(d)) && store.settings == old(store.settings) && mailer.sent == old(mailer.sent)
    ensures var d := EvaluateBackup(BackupEmailOf(old(store.settings)), now);
      d.BackupDue? ==>
        var b := BackupEmailOf(old(store.settings)).value;
        var m := BackupMail(ResendFromEmailOf(old(store.settings)), b.email,
                            BackupPayload("1.0", now, pagesListed, old(store.settings)), BackupFilename(isoTimestamp));
        var answer := mailer.respond(|old(mailer.sent)|, m);
        && Listing(pagesListed, pageKeys, store.pages)
        && mailer.sent == old(mailer.sent) + [m]
        && outcome == Attempted(answer.success, answer.error)
        && store.settings == (if answer.success then Some(WithBackupEmail(old(store.settings), Some(b.(lastSent := now))))
                              else old(store.settings))
  {
    pagesListed, pageKeys := [], [];
    var backupSettings := store.GetBackupEmailSettings();
    if backupSettings.None? || backupSettings.value.email == "" {
      outcome := NotSent(BackupReason(NoBackupConfigured));
      return;
    }
    var b := backupSettings.value;
    var frequency := OrDefault(b.frequency, 30);
    var lastSent := b.lastSent;
    if lastSent != 0 {
      var daysSinceLastBackup := DaysSince(now, lastSent);
      if daysSinceLastBackup < frequency {
        outcome := NotSent(BackupReason(NotDue(daysSinceLastBackup, frequency)));
        return;
      }
    }
    var pages;
    pages, pageKeys := store.GetAllPages();
    pagesListed := pages;
    var settings := store.GetSettings();
    var backupData := BackupPayload("1.0", now, pages, settings);
    var filename := BackupFilename(isoTimestamp);
    var result := mailer.SendBackupEmail(store, b.email, backupData, filename);
    if result.success {
      store.SaveBackupEmailSettings(Some(b.(lastSent := now)));
    }
    outcome := Attempted(result.success, result.error);
  }
}
