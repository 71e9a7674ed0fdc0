/** The status indicator of a chat bubble: which icon is shown next to the
    time and in which tint, as a function of the message status string and
    whether the bubble is a received one; plus the full-name label width. */
module DetailInfo {
  import opened Common

  datatype MessageStatus = SENDING | SENT | DELIVERED | READ | FAILED | UNKNOWN

  /** `MessageStatus(rawValue:)`; raw values are the case names. */
  function ParseStatus(raw: string): (r: Option<MessageStatus>)
    ensures r.Some? ==> StatusName(r.value) == raw
  {
    if raw == "SENDING" then Some(SENDING)
    else if raw == "SENT" then Some(SENT)
    else if raw == "DELIVERED" then Some(DELIVERED)
    else if raw == "READ" then Some(READ)
    else if raw == "FAILED" then Some(FAILED)
    else if raw == "UNKNOWN" then Some(UNKNOWN)
    else None
  }

  function StatusName(s: MessageStatus): string {
    match s
    case SENDING => "SENDING"
    case SENT => "SENT"
    case DELIVERED => "DELIVERED"
    case READ => "READ"
    case FAILED => "FAILED"
    case UNKNOWN => "UNKNOWN"
  }

  datatype StatusIcon = Pending | Checkmark | DoubleCheckmark

  /** `infoGray` is the normal tint, `darkTheme` the highlight. */
  datatype Tint = Normal | Highlight

  datatype Indicator = Indicator(status: string, received: bool, icon: Option<StatusIcon>, tint: Tint)

  /** `showStatusImage`. */
  predicate ShowStatusImage(received: bool, status: string) {
    !received || status == "FAILED"
  }

  /** `updateStatusImageAndTintColor`: the tint is kept whenever no icon is
      chosen. */
  function Refresh(v: Indicator): (r: Indicator)
    ensures r.status == v.status && r.received == v.received
    ensures ParseStatus(v.status).None? ==> r.icon.None? && r.tint == v.tint
    ensures ParseStatus(v.status).Some? && ShowStatusImage(v.received, v.status) ==>
      match ParseStatus(v.status).value
      case SENDING | FAILED | UNKNOWN => r.icon == Some(Pending) && r.tint == Normal
      case SENT => r.icon == Some(Checkmark) && r.tint == Normal
      case DELIVERED => r.icon == Some(DoubleCheckmark) && r.tint == Normal
      case READ => r.icon == Some(DoubleCheckmark) && r.tint == Highlight
    ensures !ShowStatusImage(v.received, v.status) ==> r.icon.None? && r.tint == v.tint
  {
    match ParseStatus(v.status)
    case None => v.(icon := None)
    case Some(s) =>
      if ShowStatusImage(v.received, v.status) then
        match s
        case SENDING | FAILED | UNKNOWN => v.(icon := Some(Pending), tint := Normal)
        case SENT => v.(icon := Some(Checkmark), tint := Normal)
        case DELIVERED => v.(icon := Some(DoubleCheckmark), tint := Normal)
        case READ => v.(icon := Some(DoubleCheckmark), tint := Highlight)
      else if s == FAILED then v.(icon := Some(Pending), tint := Normal)
      else v.(icon := None)
  }

  /** The view model as built: normal tint, no icon, then a refresh. */
  function NewIndicator(status: string, received: bool): (r: Indicator)
    ensures r.status == status && r.received == received
    ensures r.icon.None? ==> r.tint == Normal
  {
    Refresh(Indicator(status, received, None, Normal))
  }

  /** The `status` setter writes through and recomputes the indicator. */
  function SetStatus(v: Indicator, status: string): (r: Indicator)
    ensures r.status == status && r.received == v.received
    ensures r.icon == NewIndicator(status, v.received).icon
    ensures r.icon.Some? ==> r.tint == NewIndicator(status, v.received).tint
  {
    Refresh(v.(status := status))
  }

  /** The icon is a function of the status and the bubble side alone; only
      the tint remembers earlier states, and only while no icon is shown. */
  lemma IconIgnoresHistory(v: Indicator, w: Indicator, status: string)
    requires v.received == w.received
    ensures SetStatus(v, status).icon == SetStatus(w, status).icon
    ensures SetStatus(v, status).icon.Some? ==> SetStatus(v, status).tint == SetStatus(w, status).tint
  {
  }

  /** A received message shows an icon exactly when it failed, and then the
      pending one: the FAILED branch of the hidden case cannot be reached. */
  lemma ReceivedShowsOnlyFailure(status: string)
    ensures NewIndicator(status, true).icon.Some? <==> status == "FAILED"
    ensures status == "FAILED" ==> NewIndicator(status, true).icon == Some(Pending)
  {
  }

  /** A sent message shows an icon for every recognised status and none for
      any other string. */
  lemma SentShowsEveryKnownStatus(status: string)
    ensures NewIndicator(status, false).icon.Some? <==> ParseStatus(status).Some?
  {
  }

  lemma ParseStatusName(s: MessageStatus)
    ensures ParseStatus(StatusName(s)) == Some(s)
  {
  }

  /** Setting the same status twice is setting it once. */
  lemma SetStatusIdempotent(v: Indicator, status: string)
    ensures SetStatus(SetStatus(v, status), status) == SetStatus(v, status)
  {
  }

  const MinFullnameWidth: real := 44.0

  /** The full-name label width: the measured width, capped by the content
      width, but never narrower than 44 points. */
  function FullnameWidth(measured: real, maxContentWidth: real): (w: real)
    ensures w >= MinFullnameWidth
    ensures w == MinFullnameWidth || w == measured || w == maxContentWidth
    ensures MinFullnameWidth <= measured <= maxContentWidth ==> w == measured
    ensures MinFullnameWidth <= maxContentWidth ==> w <= maxContentWidth
    ensures measured <= MinFullnameWidth ==> w == MinFullnameWidth
    ensures maxContentWidth <= measured ==>
      w == (if MinFullnameWidth < maxContentWidth then maxContentWidth else MinFullnameWidth)
  {
    var capped := if measured < maxContentWidth then measured else maxContentWidth;
    if MinFullnameWidth < capped then capped else MinFullnameWidth
  }

  /** A wider name never gets a narrower label, and a label width fed back
      in as the measured width is kept: the width is a clamp. */
  lemma FullnameWidthClamps(m1: real, m2: real, maxContentWidth: real)
    ensures m1 <= m2 ==> FullnameWidth(m1, maxContentWidth) <= FullnameWidth(m2, maxContentWidth)
    ensures FullnameWidth(FullnameWidth(m1, maxContentWidth), maxContentWidth) == FullnameWidth(m1, maxContentWidth)
  {
  }
}
