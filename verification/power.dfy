/**
 The power button of the server control page.

 The page keeps one status. Clicking the button stops an online server at once
 and otherwise shows `starting` and schedules a 2-second timer that forces the
 status to `online`. The button is disabled while the status is `starting`.
 Timers are explicit: `timers` counts the scheduled start timers that have not
 fired yet, and `TimerDue` is one of them firing.
 */
module Power {
  import opened Wrappers
  import opened Lifecycle

  datatype Control = Control(status: Status, timers: nat)

  /** The status the page opens with: the status of the server it was given,
      or `online` when it was given none. */
  function InitialStatus(passed: Option<Status>): (s: Status)
    ensures passed.Some? ==> s == passed.value
    ensures passed.None? ==> s == Online
  {
    match passed
    case Some(st) => st
    case None => Online
  }

  /** The page as it opens: the initial status and no start timer pending,
      which already satisfies `Inv`. */
  function InitialControl(passed: Option<Status>): (c: Control)
    ensures c.status == InitialStatus(passed) && c.timers == 0
    ensures Inv(c)
  {
    Control(InitialStatus(passed), 0)
  }

  /** The button's click handler (`toggleServer`), whatever the button state. */
  function Toggle(c: Control): (d: Control)
    ensures c.status == Online ==> d.status == Offline && d.timers == c.timers
    ensures c.status != Online ==> d.status == Starting && d.timers == c.timers + 1
  {
    if c.status == Online then c.(status := Offline)
    else Control(Starting, c.timers + 1)
  }

  /** A start timer firing: the status becomes `online`, whatever it is now. */
  function StartFinished(c: Control): (d: Control)
    requires c.timers > 0
    ensures d.status == Online && d.timers + 1 == c.timers
  {
    Control(Online, c.timers - 1)
  }

  /** The button is clickable unless the server is starting. */
  function ToggleEnabled(c: Control): (clickable: bool)
    ensures clickable <==> c.status == Online || c.status == Offline
  {
    c.status != Starting
  }

  datatype Event = Click | TimerDue

  /** Events the page can receive: a click only on an enabled button, a timer
      only when one is scheduled. */
  predicate Enabled(c: Control, e: Event) {
    match e
    case Click => ToggleEnabled(c)
    case TimerDue => c.timers > 0
  }

  /** The page's reaction to one event it can receive. A delivered click
      always changes the status, and no event breaks `Inv`. */
  function Step(c: Control, e: Event): (d: Control)
    requires Enabled(c, e)
    ensures e.Click? ==> d.status != c.status
    ensures Inv(c) ==> Inv(d)
  {
    match e
    case Click => Toggle(c)
    case TimerDue => StartFinished(c)
  }

  /** A click the page can actually deliver happens from `online` or
      `offline`, and lands in `offline` or `starting` respectively. */
  lemma ClickableToggle(c: Control)
    requires ToggleEnabled(c)
    ensures c.status == Online || c.status == Offline
    ensures Toggle(c).status == (if c.status == Online then Offline else Starting)
  {
  }

  /** The page's events applied in order; `None` if one of them could not
      have happened at its point. */
  function Run(c: Control, events: seq<Event>): Option<Control>
    decreases |events|
  {
    if events == [] then Some(c)
    else if Enabled(c, events[0]) then Run(Step(c, events[0]), events[1..])
    else None
  }

  /**
   What the disabled button guarantees: at most one start timer is ever
   pending, and only while the status is `starting`.
   */
  predicate Inv(c: Control) {
    c.timers <= 1 && (c.timers == 1 ==> c.status == Starting)
  }

  lemma StepPreservesInv(c: Control, e: Event)
    requires Inv(c) && Enabled(c, e)
    ensures Inv(Step(c, e))
  {
  }

  /** Every state the page can reach satisfies `Inv`. */
  lemma {:induction false} RunPreservesInv(c: Control, events: seq<Event>)
    requires Inv(c)
    ensures Run(c, events).Some? ==> Inv(Run(c, events).value)
    decreases |events|
  {
    if events != [] && Enabled(c, events[0]) {
      StepPreservesInv(c, events[0]);
      RunPreservesInv(Step(c, events[0]), events[1..]);
    }
  }

  /** Consequently a start timer never overrides a stop: on every reachable
      state, a firing timer finds the server `starting`. */
  lemma {:induction false} TimerOnlyEndsAStart(passed: Option<Status>, events: seq<Event>)
    requires Run(InitialControl(passed), events).Some?
    ensures var c := Run(InitialControl(passed), events).value;
            Enabled(c, TimerDue) ==> c.status == Starting
  {
    RunPreservesInv(InitialControl(passed), events);
  }

  /** Without the disabled button the guarantee fails: clicking twice while
      starting schedules two timers, and the second one restarts a server the
      user had stopped in between. */
  lemma UngatedClicksLetAStaleTimerUndoAStop()
    ensures var c0 := Control(Offline, 0);
            var c1 := Toggle(Toggle(c0));
            var c2 := StartFinished(c1);
            var c3 := Toggle(c2);
            && c3.status == Offline
            && c3.timers > 0
            && StartFinished(c3).status == Online
  {
  }

  /** A page opened on a server that is already `starting` has no timer and a
      disabled button, so no event can ever change its status. */
  lemma OpenedStartingStaysStarting(events: seq<Event>)
    requires events != []
    ensures Run(InitialControl(Some(Starting)), events) == None
  {
  }

  /** The status badge text of this page; each text names exactly one status. */
  function StatusText(s: Status): (text: string)
    ensures text == "Онлайн" <==> s == Online
    ensures text == "Оффлайн" <==> s == Offline
    ensures text == "Запуск..." <==> s == Starting
  {
    match s
    case Online => "Онлайн"
    case Offline => "Оффлайн"
    case Starting => "Запуск..."
  }

  /** The control page's badges are distinct, so a badge names its status. */
  lemma StatusTextRoundTrip(s: Status)
    ensures StatusOfLabel(StatusText, StatusText(s)) == Some(s)
  {
    LabelRoundTrip(StatusText, s);
  }
}
