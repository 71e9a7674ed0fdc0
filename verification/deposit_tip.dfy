/** The deposit tip sheet: when a deposit needs a tag (memo), the continue
    button stays disabled for a short countdown, and the sheet can only be
    dismissed through that button. The timer is modelled as tick events
    delivered while it runs. */
module DepositTip {

  /** The countdown a fresh sheet starts from, in one-second ticks. */
  const InitialCountDown: int := 2

  /** The button's title: "Got it" with the remaining seconds, or plain. */
  datatype ButtonTitle = GotIt(remaining: int) | GotItPlain | Unset

  datatype Warning = NoWarning | AccountAttention | DepositAttention | DepositAttentionAtLeast

  datatype TipWindow = TipWindow(
    canDismiss: bool, countDown: int, timerRunning: bool,
    buttonEnabled: bool, title: ButtonTitle, warning: Warning, dismissed: bool)

  const NewTipWindow := TipWindow(false, InitialCountDown, false, false, Unset, NoWarning, false)

  /** `render(asset:depositEntryIndex:)`, given the chosen entry's tag and
      whether the asset has a positive reserve. A tagged entry restarts the
      timer but does not reset the countdown; an untagged one enables the
      button and leaves any running timer alone. */
  function Render(w: TipWindow, tag: string, reservePositive: bool): (r: TipWindow)
    ensures r.countDown == w.countDown && r.canDismiss == w.canDismiss && r.dismissed == w.dismissed
    ensures tag != [] ==> !r.buttonEnabled && r.timerRunning && r.title == GotIt(w.countDown) && r.warning == AccountAttention
    ensures tag == [] ==> r.buttonEnabled && r.timerRunning == w.timerRunning && r.title == w.title
    ensures tag == [] ==> r.warning == (if reservePositive then DepositAttentionAtLeast else DepositAttention)
  {
    if tag != [] then
      w.(title := GotIt(w.countDown), buttonEnabled := false, warning := AccountAttention, timerRunning := true)
    else
      w.(buttonEnabled := true, warning := if reservePositive then DepositAttentionAtLeast else DepositAttention)
  }

  /** `countDownAction`: one second passes. */
  function Tick(w: TipWindow): (r: TipWindow)
    ensures r.countDown == w.countDown - 1
    ensures r.countDown <= 0 ==> r.buttonEnabled && !r.timerRunning && r.title == GotItPlain
    ensures r.countDown > 0 ==> r.buttonEnabled == w.buttonEnabled && r.timerRunning == w.timerRunning && r.title == GotIt(r.countDown)
    ensures r.canDismiss == w.canDismiss && r.dismissed == w.dismissed
  {
    var c := w.countDown - 1;
    if c <= 0 then w.(countDown := c, timerRunning := false, buttonEnabled := true, title := GotItPlain)
    else w.(countDown := c, title := GotIt(c))
  }

  /** `dismissPopupController`: ignored until the button allowed it. */
  function Dismiss(w: TipWindow): (r: TipWindow)
    ensures r.dismissed <==> w.dismissed || w.canDismiss
    ensures r.canDismiss == w.canDismiss
  {
    if w.canDismiss then w.(dismissed := true) else w
  }

  /** `okAction`. */
  function Ok(w: TipWindow): (r: TipWindow)
    ensures r.canDismiss && r.dismissed
  {
    Dismiss(w.(canDismiss := true))
  }

  datatype TipEvent = Rendered(tag: string, reservePositive: bool) | Ticked | DismissRequested | OkTapped

  /** Applies one event. Ticks arrive only while the timer runs and taps
      only while the button is enabled. */
  function Step(w: TipWindow, e: TipEvent): (r: TipWindow)
    ensures r.canDismiss <==> w.canDismiss || (e == OkTapped && w.buttonEnabled)
    ensures r.dismissed <==> w.dismissed || (e == OkTapped && w.buttonEnabled) || (e == DismissRequested && w.canDismiss)
    ensures !e.Rendered? && !e.Ticked? ==> r.buttonEnabled == w.buttonEnabled && r.countDown == w.countDown
  {
    match e
    case Rendered(tag, reservePositive) => Render(w, tag, reservePositive)
    case Ticked => if w.timerRunning then Tick(w) else w
    case DismissRequested => Dismiss(w)
    case OkTapped => if w.buttonEnabled then Ok(w) else w
  }

  function Run(w: TipWindow, events: seq<TipEvent>): TipWindow
    decreases |events|
  {
    if events == [] then w else Run(Step(w, events[0]), events[1..])
  }

  predicate TappedWhileEnabled(w: TipWindow, events: seq<TipEvent>)
    decreases |events|
  {
    events != [] && ((events[0] == OkTapped && w.buttonEnabled) || TappedWhileEnabled(Step(w, events[0]), events[1..]))
  }

  /** The sheet is dismissed only after the enabled button was tapped:
      swipes and outside taps alone never close it. */
  lemma {:induction false} DismissalNeedsOk(w: TipWindow, events: seq<TipEvent>)
    requires !w.canDismiss && !w.dismissed
    ensures Run(w, events).dismissed ==> TappedWhileEnabled(w, events)
    decreases |events|
  {
    if events != [] {
      var w' := Step(w, events[0]);
      if !(events[0] == OkTapped && w.buttonEnabled) {
        DismissalNeedsOk(w', events[1..]);
      }
    }
  }

  function Ticks(events: seq<TipEvent>): nat {
    if events == [] then 0 else (if events[0] == Ticked then 1 else 0) + Ticks(events[1..])
  }

  predicate NoRender(events: seq<TipEvent>) {
    forall i :: 0 <= i < |events| ==> !events[i].Rendered?
  }

  /** While the button is disabled, closing the sheet takes at least as many
      ticks as the countdown shows: with a tag, the reader has had the
      countdown's seconds before the sheet can go. */
  lemma {:induction false} DismissalWaitsForCountdown(w: TipWindow, events: seq<TipEvent>)
    requires !w.buttonEnabled && !w.canDismiss && !w.dismissed && NoRender(events)
    ensures Run(w, events).dismissed ==> Ticks(events) >= w.countDown
    decreases |events|
  {
    if events != [] {
      var w' := Step(w, events[0]);
      assert !events[0].Rendered?;
      if !w'.buttonEnabled {
        DismissalWaitsForCountdown(w', events[1..]);
      }
    }
  }

  /** A fresh sheet for a tagged entry is dismissible after two ticks and
      an OK tap, and not before. */
  lemma TaggedSheetScenario()
    ensures Run(NewTipWindow, [Rendered("memo", false), Ticked, OkTapped, DismissRequested]).dismissed == false
    ensures Run(NewTipWindow, [Rendered("memo", false), Ticked, Ticked, OkTapped]).dismissed
  {
  }
}
