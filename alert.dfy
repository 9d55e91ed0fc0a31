/**
 * The banner and alert decision taken after each frame. The script asks
 * whether any thread besides the main one is alive and starts a sound thread
 * only if none is; here that ambient question is the gate's `busy` state. An
 * alert that starts sets `busy`, and only an explicit "finished" event clears
 * it again: that event stands for the sound thread ending, which the script
 * itself never observes.
 */
module Alert {

  /** What lines 74-77 decide for one frame: whether the banner is drawn and
      whether a new alert starts. */
  datatype GateOutput = GateOutput(banner: bool, startAlert: bool)

  /** The decision for a frame whose flag is `nonFoodDetected`, while an
      earlier alert is (`busy`) or is not still running. */
  function Decide(busy: bool, nonFoodDetected: bool): GateOutput
  {
    if nonFoodDetected then GateOutput(true, !busy) else GateOutput(false, false)
  }

  /** What the gate hears: a frame's verdict, or the end of the running alert. */
  datatype Event = Verdict(nonFoodDetected: bool) | Finished

  /** The gate's state after one event. */
  function Next(busy: bool, e: Event): bool
  {
    match e
    case Verdict(flag) => busy || Decide(busy, flag).startAlert
    case Finished => false
  }

  /** What a run of events produced: alerts started, banners drawn, and the
      gate's final state. */
  datatype Tally = Tally(alerts: nat, banners: nat, busy: bool)

  /** The gate driven through `events` from state `busy`. */
  function Run(busy: bool, events: seq<Event>): Tally
    decreases events
  {
    if events == [] then Tally(0, 0, busy)
    else
      var out := if events[0].Verdict? then Decide(busy, events[0].nonFoodDetected) else GateOutput(false, false);
      var rest := Run(Next(busy, events[0]), events[1..]);
      Tally((if out.startAlert then 1 else 0) + rest.alerts,
            (if out.banner then 1 else 0) + rest.banners,
            rest.busy)
  }

  /** The number of flagged frames among `events`. */
  function Flagged(events: seq<Event>): nat
  {
    if events == [] then 0 else (if events[0] == Verdict(true) then 1 else 0) + Flagged(events[1..])
  }

  /** The number of "alert finished" events among `events`. */
  function Finishes(events: seq<Event>): nat
  {
    if events == [] then 0 else (if events[0] == Finished then 1 else 0) + Finishes(events[1..])
  }

  /** A single frame: the banner follows the flag, whatever the gate's state;
      an alert starts exactly when the frame is flagged and the gate is idle;
      afterwards the gate is busy if it was or if an alert started. */
  lemma DecideMeaning(busy: bool, nonFoodDetected: bool)
    ensures Decide(busy, nonFoodDetected).banner == nonFoodDetected
    ensures Decide(busy, nonFoodDetected).startAlert <==> nonFoodDetected && !busy
    ensures Next(busy, Verdict(nonFoodDetected)) <==> busy || (nonFoodDetected && !busy)
    ensures !Next(busy, Finished)
  {
  }

  /** Running two stretches of events one after the other is running their
      concatenation. */
  lemma {:induction false} RunAppend(busy: bool, xs: seq<Event>, ys: seq<Event>)
    ensures Run(busy, xs + ys) ==
      var first := Run(busy, xs);
      var second := Run(first.busy, ys);
      Tally(first.alerts + second.alerts, first.banners + second.banners, second.busy)
    decreases xs
  {
    if xs != [] {
      assert (xs + ys)[0] == xs[0];
      assert (xs + ys)[1..] == xs[1..] + ys;
      RunAppend(Next(busy, xs[0]), xs[1..], ys);
    } else {
      assert xs + ys == ys;
    }
  }

  /** The banner is drawn on every flagged frame, whether or not an alert
      starts. */
  lemma {:induction false} BannerOnEveryFlaggedFrame(busy: bool, events: seq<Event>)
    ensures Run(busy, events).banners == Flagged(events)
    decreases events
  {
    if events != [] {
      BannerOnEveryFlaggedFrame(Next(busy, events[0]), events[1..]);
    }
  }

  /** While an alert is running, any number of frames, flagged or not, start
      no further alert, and the gate stays busy. */
  lemma {:induction false} BusySuppresses(events: seq<Event>)
    requires Finished !in events
    ensures Run(true, events).alerts == 0
    ensures Run(true, events).busy
  {
    if events != [] {
      assert events[0] in events;
      assert forall e :: e in events[1..] ==> e in events;
      BusySuppresses(events[1..]);
    }
  }

  /** From an idle gate, a stretch of frames with no "finished" event starts
      exactly one alert if some frame is flagged and none otherwise. */
  lemma {:induction false} OneAlertPerEpisode(events: seq<Event>)
    requires Finished !in events
    ensures Run(false, events).alerts == if Verdict(true) in events then 1 else 0
    ensures Run(false, events).busy <==> Verdict(true) in events
  {
    if events != [] {
      assert events[0] in events;
      assert forall e :: e in events[1..] ==> e in events;
      assert events == [events[0]] + events[1..];
      if events[0] == Verdict(true) {
        BusySuppresses(events[1..]);
      } else {
        OneAlertPerEpisode(events[1..]);
      }
    }
  }

  /** Alerts never overlap: every alert after the first needs an earlier
      "finished" event, so the alerts started never exceed the finishes by
      more than one (by none, if an alert was already running). */
  lemma {:induction false} AtMostOneInFlight(busy: bool, events: seq<Event>)
    ensures Run(busy, events).alerts <= Finishes(events) + if busy then 0 else 1
    decreases events
  {
    if events != [] {
      AtMostOneInFlight(Next(busy, events[0]), events[1..]);
    }
  }

  /** Once the running alert has finished, the next flagged frame starts a new
      one. */
  lemma Retrigger(busy: bool, events: seq<Event>)
    ensures Run(busy, events + [Finished, Verdict(true)]).alerts == Run(busy, events).alerts + 1
  {
    RunAppend(busy, events, [Finished, Verdict(true)]);
    assert [Finished, Verdict(true)][1..] == [Verdict(true)];
  }

  /** The gate as an object: `busy` stands for "another thread is alive". The
      ghost fields record the events so far and what they produced. */
  class AlertGate {
    var busy: bool
    ghost var History: seq<Event>
    ghost var AlertsStarted: nat
    ghost var BannersShown: nat

    /** The fields agree with the gate run from idle over its history. */
    ghost predicate Valid()
      reads this
    {
      Run(false, History) == Tally(AlertsStarted, BannersShown, busy)
    }

    /** At start-up no alert is running. */
    constructor ()
      ensures Valid() && History == [] && !busy
    {
      busy := false;
      History := [];
      AlertsStarted := 0;
      BannersShown := 0;
    }

    /** Lines 74-77 for one frame: the banner follows the flag, and an alert
        starts only on a flagged frame while no alert runs. A frame that is
        not flagged leaves a running alert running. */
    method OnVerdict(nonFoodDetected: bool) returns (banner: bool, startAlert: bool)
      requires Valid()
      modifies this
      ensures Valid()
      ensures History == old(History) + [Verdict(nonFoodDetected)]
      ensures banner == nonFoodDetected
      ensures startAlert <==> nonFoodDetected && !old(busy)
      ensures busy <==> old(busy) || startAlert
      ensures AlertsStarted == old(AlertsStarted) + (if startAlert then 1 else 0)
      ensures BannersShown == old(BannersShown) + (if banner then 1 else 0)
      ensures AlertsStarted <= Finishes(History) + 1
    {
      banner, startAlert := false, false;
      if nonFoodDetected {
        banner := true;
        if !busy {
          startAlert := true;
          busy := true;
        }
      }
      RunAppend(false, History, [Verdict(nonFoodDetected)]);
      History := History + [Verdict(nonFoodDetected)];
      AlertsStarted := AlertsStarted + (if startAlert then 1 else 0);
      BannersShown := BannersShown + (if banner then 1 else 0);
      AtMostOneInFlight(false, History);
    }

    /** The running alert has ended (for the script: the sound thread is no
        longer alive). */
    method AlertFinished()
      requires Valid()
      modifies this
      ensures Valid()
      ensures History == old(History) + [Finished]
      ensures !busy
      ensures AlertsStarted == old(AlertsStarted) && BannersShown == old(BannersShown)
    {
      RunAppend(false, History, [Finished]);
      busy := false;
      History := History + [Finished];
    }
  }
}
