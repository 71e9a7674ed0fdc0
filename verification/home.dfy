/** The conversation list on the home screen: pinning and unpinning a row,
    the paging and refresh flags of the list fetch, and the two predicates
    that decide whether the notification bulletin is hidden and whether an
    App Store review is requested. The database, the clock and the
    notification settings are inputs. */
module Home {
  import opened Common

  /** Conversations fetched per page, and how close to the end a displayed
      row must be to load more. */
  const MessageCountPerPage: int := 30
  const LoadMoreMessageThreshold: int := 10

  /** A list row. Dates are the stored UTC strings, compared as strings. */
  datatype Conversation = Conversation(conversationId: string, pinTime: Option<string>, createdAt: string)

  /** String order: character by character, a proper prefix first. */
  predicate Before(a: string, b: string)
    decreases |a|
  {
    if b == [] then false
    else if a == [] then true
    else if a[0] != b[0] then a[0] < b[0]
    else Before(a[1..], b[1..])
  }

  lemma {:induction false} BeforeTotal(a: string, b: string)
    ensures Before(a, b) || a == b || Before(b, a)
    decreases |a|
  {
    if a != [] && b != [] && a[0] == b[0] {
      BeforeTotal(a[1..], b[1..]);
      if a[1..] == b[1..] {
        assert a == [a[0]] + a[1..] && b == [b[0]] + b[1..];
      }
    }
  }

  lemma {:induction false} BeforeAsymmetric(a: string, b: string)
    ensures Before(a, b) ==> !Before(b, a)
    decreases |a|
  {
    if a != [] && b != [] && a[0] == b[0] {
      BeforeAsymmetric(a[1..], b[1..]);
    }
  }

  lemma {:induction false} BeforeTransitive(a: string, b: string, c: string)
    requires Before(a, b) && Before(b, c)
    ensures Before(a, c)
    decreases |a|
  {
    if a != [] && a[0] == b[0] && b[0] == c[0] {
      BeforeTransitive(a[1..], b[1..], c[1..]);
    }
  }

  function RemoveAt<T>(s: seq<T>, i: nat): (r: seq<T>)
    requires i < |s|
    ensures |r| == |s| - 1
    ensures forall j :: 0 <= j < i ==> r[j] == s[j]
    ensures forall j :: i <= j < |r| ==> r[j] == s[j + 1]
  {
    s[..i] + s[i + 1..]
  }

  function InsertAt<T>(s: seq<T>, i: nat, x: T): (r: seq<T>)
    requires i <= |s|
    ensures |r| == |s| + 1 && r[i] == x
    ensures forall j :: 0 <= j < i ==> r[j] == s[j]
    ensures forall j :: i < j < |r| ==> r[j] == s[j - 1]
  {
    s[..i] + [x] + s[i..]
  }

  lemma RemoveInserted<T>(s: seq<T>, i: nat, x: T)
    requires i <= |s|
    ensures RemoveAt(InsertAt(s, i, x), i) == s
  {
  }

  /** Where an unpinned conversation goes back: before the first unpinned
      conversation created earlier than it. */
  predicate ReturnsBefore(other: Conversation, moved: Conversation) {
    other.pinTime.None? && Before(other.createdAt, moved.createdAt)
  }

  function FirstReturnSlot(rest: seq<Conversation>, moved: Conversation): (i: nat)
    ensures i <= |rest|
    ensures forall j :: 0 <= j < i ==> !ReturnsBefore(rest[j], moved)
    ensures i < |rest| ==> ReturnsBefore(rest[i], moved)
  {
    if rest == [] then 0
    else if ReturnsBefore(rest[0], moved) then 0
    else 1 + FirstReturnSlot(rest[1..], moved)
  }

  /** What the database is told. */
  datatype PinUpdate = PinUpdate(conversationId: string, pinTime: Option<string>)

  datatype PinOutcome = PinOutcome(conversations: seq<Conversation>, destination: nat, update: PinUpdate)

  /** `tableViewCommitPinAction` on a displayed row, `now` being the UTC
      time string of the moment. */
  function TogglePin(cs: seq<Conversation>, row: nat, now: string): (r: PinOutcome)
    requires row < |cs|
    ensures |r.conversations| == |cs| && r.destination < |cs|
    ensures RemoveAt(r.conversations, r.destination) == RemoveAt(cs, row)
    ensures r.conversations[r.destination] == cs[row].(pinTime := if cs[row].pinTime.None? then Some(now) else None)
    ensures r.update == PinUpdate(cs[row].conversationId, r.conversations[r.destination].pinTime)
    ensures cs[row].pinTime.None? ==> r.destination == 0
    ensures cs[row].pinTime.Some? ==>
      (forall j :: 0 <= j < r.destination ==> !ReturnsBefore(RemoveAt(cs, row)[j], cs[row]))
    ensures cs[row].pinTime.Some? && r.destination < |cs| - 1 ==>
      ReturnsBefore(RemoveAt(cs, row)[r.destination], cs[row])
  {
    var c := cs[row];
    var rest := RemoveAt(cs, row);
    if c.pinTime.None? then
      var moved := c.(pinTime := Some(now));
      RemoveInserted(rest, 0, moved);
      PinOutcome(InsertAt(rest, 0, moved), 0, PinUpdate(c.conversationId, Some(now)))
    else
      var moved := c.(pinTime := None);
      var d := FirstReturnSlot(rest, c);
      RemoveInserted(rest, d, moved);
      PinOutcome(InsertAt(rest, d, moved), d, PinUpdate(c.conversationId, None))
  }

  function Ids(cs: seq<Conversation>): seq<string> {
    seq(|cs|, i requires 0 <= i < |cs| => cs[i].conversationId)
  }

  lemma IdsRemoveAt(cs: seq<Conversation>, i: nat)
    requires i < |cs|
    ensures Ids(RemoveAt(cs, i)) == RemoveAt(Ids(cs), i)
  {
  }

  lemma MultisetRemoveAt<T>(s: seq<T>, i: nat)
    requires i < |s|
    ensures multiset(s) == multiset(RemoveAt(s, i)) + multiset{s[i]}
  {
    assert s == s[..i] + [s[i]] + s[i + 1..];
  }

  /** Pinning and unpinning only move a conversation: the same
      conversations are listed afterwards, the same number of times. */
  lemma TogglePinPermutes(cs: seq<Conversation>, row: nat, now: string)
    requires row < |cs|
    ensures multiset(Ids(TogglePin(cs, row, now).conversations)) == multiset(Ids(cs))
  {
    var r := TogglePin(cs, row, now);
    var d := r.destination;
    IdsRemoveAt(r.conversations, d);
    IdsRemoveAt(cs, row);
    MultisetRemoveAt(Ids(r.conversations), d);
    MultisetRemoveAt(Ids(cs), row);
  }

  /** The order the unpin rule is written for: pinned conversations first,
      then the unpinned ones from the newest to the oldest. */
  ghost predicate Ordered(cs: seq<Conversation>) {
    (forall i, j :: 0 <= i < j < |cs| && cs[i].pinTime.None? ==> cs[j].pinTime.None?) &&
    (forall i, j :: 0 <= i < j < |cs| && cs[i].pinTime.None? && cs[j].pinTime.None? ==>
       !Before(cs[i].createdAt, cs[j].createdAt))
  }

  lemma RemovePreservesOrdered(cs: seq<Conversation>, row: nat)
    requires row < |cs| && Ordered(cs)
    ensures Ordered(RemoveAt(cs, row))
  {
    var rest := RemoveAt(cs, row);
    forall i, j | 0 <= i < j < |rest|
      ensures rest[i] == cs[if i < row then i else i + 1] && rest[j] == cs[if j < row then j else j + 1]
    {
    }
  }

  /** Pinning or unpinning keeps that order: the unpinned conversation
      lands among the unpinned ones where its creation date belongs. */
  lemma TogglePinPreservesOrdered(cs: seq<Conversation>, row: nat, now: string)
    requires row < |cs| && Ordered(cs)
    ensures Ordered(TogglePin(cs, row, now).conversations)
  {
    RemovePreservesOrdered(cs, row);
    var r := TogglePin(cs, row, now);
    if cs[row].pinTime.Some? {
      UnpinKeepsOrder(RemoveAt(cs, row), cs[row], r.destination, r.conversations);
    } else {
      PinKeepsOrder(RemoveAt(cs, row), r.conversations[0], r.conversations);
    }
  }

  lemma PinKeepsOrder(rest: seq<Conversation>, c: Conversation, out: seq<Conversation>)
    requires Ordered(rest) && c.pinTime.Some? && out == InsertAt(rest, 0, c)
    ensures Ordered(out)
  {
    forall i, j | 0 <= i < j < |out|
      ensures out[j] == rest[j - 1] && (i > 0 ==> out[i] == rest[i - 1])
    {
    }
  }

  lemma UnpinKeepsOrder(rest: seq<Conversation>, c: Conversation, d: nat, out: seq<Conversation>)
    requires Ordered(rest) && d <= |rest|
    requires out == InsertAt(rest, d, c.(pinTime := None))
    requires forall k :: 0 <= k < d ==> !ReturnsBefore(rest[k], c)
    requires d < |rest| ==> ReturnsBefore(rest[d], c)
    ensures Ordered(out)
  {
    forall i, j | 0 <= i < j < |out| && out[i].pinTime.None?
      ensures out[j].pinTime.None?
    {
      if j > d {
        assert out[j] == rest[j - 1];
        if d < j - 1 {
          assert rest[d].pinTime.None?;
        }
      } else if j < d {
        assert out[i] == rest[i] && out[j] == rest[j];
      }
    }
    forall i, j | 0 <= i < j < |out| && out[i].pinTime.None? && out[j].pinTime.None?
      ensures !Before(out[i].createdAt, out[j].createdAt)
    {
      UnpinPairOrdered(rest, c, d, out, i, j);
    }
  }

  lemma UnpinPairOrdered(rest: seq<Conversation>, c: Conversation, d: nat, out: seq<Conversation>, i: nat, j: nat)
    requires Ordered(rest) && d <= |rest|
    requires out == InsertAt(rest, d, c.(pinTime := None))
    requires forall k :: 0 <= k < d ==> !ReturnsBefore(rest[k], c)
    requires d < |rest| ==> ReturnsBefore(rest[d], c)
    requires i < j < |out| && out[i].pinTime.None? && out[j].pinTime.None?
    ensures !Before(out[i].createdAt, out[j].createdAt)
  {
    if i == d {
      // out[j] is at or after rest[d], which is older than c.
      var o := rest[j - 1];
      if j - 1 > d {
        assert !Before(rest[d].createdAt, o.createdAt);
        BeforeTotal(rest[d].createdAt, o.createdAt);
        if o.createdAt != rest[d].createdAt {
          BeforeTransitive(o.createdAt, rest[d].createdAt, c.createdAt);
        }
      }
      BeforeAsymmetric(o.createdAt, c.createdAt);
    } else if j == d {
      assert !ReturnsBefore(rest[i], c);
    } else if i < d && d < j {
      // both are original entries, in their original order
      assert out[i] == rest[i] && out[j] == rest[j - 1];
    } else if j < d {
      assert out[i] == rest[i] && out[j] == rest[j];
    } else {
      assert out[i] == rest[i - 1] && out[j] == rest[j - 1];
    }
  }

  // ---- paging and refresh ----

  datatype FeedState = FeedState(refreshing: bool, needRefresh: bool)

  /** A fresh home screen: a refresh is owed and none is running. */
  const InitialFeed := FeedState(false, true)

  /** A step of the feed and whether it started a database fetch. */
  datatype FeedStep = FeedStep(state: FeedState, started: bool)

  /** `fetchConversations`: nothing when logged out; while a fetch runs,
      only remember that another one is owed. */
  function FetchConversations(s: FeedState, loggedIn: bool): (r: FeedStep)
    ensures r.started <==> loggedIn && !s.refreshing
    ensures r.started ==> r.state == FeedState(true, false)
    ensures loggedIn && s.refreshing ==> r.state == s.(needRefresh := true)
    ensures !loggedIn ==> r.state == s
  {
    if !loggedIn then FeedStep(s, false)
    else if s.refreshing then FeedStep(s.(needRefresh := true), false)
    else FeedStep(FeedState(true, false), true)
  }

  /** `willDisplay`: near the end of a full page, load more. */
  function WillDisplay(s: FeedState, count: nat, row: nat, loggedIn: bool): (r: FeedStep)
    ensures r.started <==> count >= MessageCountPerPage && row > count - LoadMoreMessageThreshold && !s.refreshing && loggedIn
    ensures (count < MessageCountPerPage || row <= count - LoadMoreMessageThreshold) ==> r.state == s
    ensures count >= MessageCountPerPage && row > count - LoadMoreMessageThreshold && s.refreshing ==>
      r.state == s.(needRefresh := true)
  {
    if count < MessageCountPerPage then FeedStep(s, false)
    else if row <= count - LoadMoreMessageThreshold then FeedStep(s, false)
    else if s.refreshing then FeedStep(s.(needRefresh := true), false)
    else FetchConversations(s, loggedIn)
  }

  /** The delayed continuation of a fetch: the flag drops and an owed
      refresh starts at once. */
  function FinishFetch(s: FeedState, loggedIn: bool): (r: FeedStep)
    ensures r.started <==> s.needRefresh && loggedIn
    ensures !s.needRefresh ==> r.state == FeedState(false, false)
    ensures r.started ==> r.state == FeedState(true, false)
  {
    var idle := s.(refreshing := false);
    if idle.needRefresh then FetchConversations(idle, loggedIn) else FeedStep(idle, false)
  }

  /** `dataDidChange`: on screen the list is fetched again; off screen a
      refresh is only owed. */
  function DataDidChange(s: FeedState, visible: bool, loggedIn: bool): (r: FeedStep)
    ensures r.started <==> visible && loggedIn && !s.refreshing
    ensures !visible ==> r.state == s.(needRefresh := true)
    ensures r.started ==> r.state == FeedState(true, false)
    ensures visible && loggedIn && s.refreshing ==> r.state == s.(needRefresh := true)
    ensures visible && !loggedIn ==> r.state == s
  {
    if visible then FetchConversations(s, loggedIn) else FeedStep(s.(needRefresh := true), false)
  }

  /** `viewWillAppear`: an owed refresh is started. */
  function WillAppear(s: FeedState, loggedIn: bool): (r: FeedStep)
    ensures r.started <==> s.needRefresh && loggedIn && !s.refreshing
    ensures !s.needRefresh ==> r.state == s
  {
    if s.needRefresh then FetchConversations(s, loggedIn) else FeedStep(s, false)
  }

  /** A change that happens off screen is not lost: the list is fetched when
      the screen appears again, unless a fetch is running, whose
      continuation then starts it. */
  lemma HiddenChangeFetchedOnAppear(s: FeedState)
    ensures var hidden := DataDidChange(s, false, true).state;
      && (!s.refreshing ==> WillAppear(hidden, true).started)
      && (s.refreshing ==> FinishFetch(WillAppear(hidden, true).state, true).started)
  {
  }

  datatype FeedEvent =
    | Displayed(count: nat, row: nat, loggedIn: bool)
    | Fetch(loggedIn: bool)
    | DataChanged(visible: bool, loggedIn: bool)
    | Appeared(loggedIn: bool)
    | Finished(loggedIn: bool)

  /** One event; a `Finished` is delivered only while a fetch is running,
      since only a running fetch schedules one. */
  function FeedEventStep(s: FeedState, e: FeedEvent): FeedStep {
    match e
    case Displayed(count, row, loggedIn) => WillDisplay(s, count, row, loggedIn)
    case Fetch(loggedIn) => FetchConversations(s, loggedIn)
    case DataChanged(visible, loggedIn) => DataDidChange(s, visible, loggedIn)
    case Appeared(loggedIn) => WillAppear(s, loggedIn)
    case Finished(loggedIn) => if s.refreshing then FinishFetch(s, loggedIn) else FeedStep(s, false)
  }

  /** Runs events from `s` and returns the final state with the numbers of
      fetches started and finished. At most one fetch runs at a time: every
      fetch started has finished except the one running now, if any. */
  function RunFeed(s: FeedState, events: seq<FeedEvent>): (r: (FeedState, nat, nat))
    ensures r.1 + (if s.refreshing then 1 else 0) == r.2 + (if r.0.refreshing then 1 else 0)
    decreases |events|
  {
    if events == [] then (s, 0, 0)
    else
      var e := events[0];
      var step := FeedEventStep(s, e);
      var finished := if e.Finished? && s.refreshing then 1 else 0;
      var rest := RunFeed(step.state, events[1..]);
      (rest.0, rest.1 + (if step.started then 1 else 0), rest.2 + finished)
  }

  /** A request that arrives during a fetch is not lost: the fetch's
      continuation starts the owed one. */
  lemma RequestDuringFetchIsDeferred(s: FeedState)
    requires s.refreshing
    ensures FinishFetch(FetchConversations(s, true).state, true).started
  {
  }

  // ---- bulletin and review ----

  const NotificationAuthorizationAlertingPeriod: real := 2.0 * 24.0 * 60.0 * 60.0
  const SevenDays: real := 7.0 * 24.0 * 60.0 * 60.0

  /** `updateBulletinView`: `dismissedAgo` is the time since the bulletin
      was dismissed, if ever. */
  predicate ShouldHideBulletin(denied: bool, dismissedAgo: Option<real>) {
    if denied then
      match dismissedAgo
      case None => false
      case Some(ago) => ago < NotificationAuthorizationAlertingPeriod
    else true
  }

  /** With notifications denied, a dismissed bulletin comes back once two
      days have passed and stays back as time goes on. */
  lemma BulletinReturnsAfterTwoDays(ago: real, later: real)
    requires ago <= later
    ensures !ShouldHideBulletin(true, Some(ago)) ==> !ShouldHideBulletin(true, Some(later))
    ensures ShouldHideBulletin(true, Some(ago)) <==> ago < 2.0 * 86400.0
    ensures !ShouldHideBulletin(true, None)
    ensures forall d :: ShouldHideBulletin(false, d)
  {
  }

  datatype ReviewStep = ReviewStep(requested: bool, hasTried: bool)

  /** `requestAppStoreReviewIfNeeded`: `sinceFirstLaunch` is absent when no
      first-launch date is stored, and then nothing happens at all. */
  function RequestReviewIfNeeded(hasTried: bool, sinceFirstLaunch: Option<real>, hasPerformedTransfer: bool): (r: ReviewStep)
    ensures r.requested <==> !hasTried && hasPerformedTransfer && sinceFirstLaunch.Some? && sinceFirstLaunch.value > SevenDays
    ensures r.hasTried == (hasTried || sinceFirstLaunch.Some?)
  {
    match sinceFirstLaunch
    case None => ReviewStep(false, hasTried)
    case Some(age) => ReviewStep(!hasTried && hasPerformedTransfer && age > SevenDays, true)
  }

  datatype ReviewCall = ReviewCall(sinceFirstLaunch: Option<real>, hasPerformedTransfer: bool)

  /** The number of review requests made by a sequence of calls: a process
      asks at most once, and never after the flag is set. */
  function ReviewRequests(hasTried: bool, calls: seq<ReviewCall>): (n: nat)
    ensures n <= 1
    ensures hasTried ==> n == 0
    decreases |calls|
  {
    if calls == [] then 0
    else
      var r := RequestReviewIfNeeded(hasTried, calls[0].sinceFirstLaunch, calls[0].hasPerformedTransfer);
      (if r.requested then 1 else 0) + ReviewRequests(r.hasTried, calls[1..])
  }
}
