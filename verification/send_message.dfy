/** Outgoing-message preparation (`SendMessageService.sendMessage`): the
    category is normalised to the signal or plain family, transcript children
    are made to match, text is truncated, and the message is classified for
    dispatch. Account lookup, the DAOs, the uploader queue and the network are
    parameters or appear as the returned outcome. */
module SendMessage {
  import opened Common

  type UserId = string

  datatype Message = Message(
    messageId: string,
    conversationId: string,
    userId: UserId,
    category: string,
    status: string,
    content: Option<string>,
    mediaCreatedAt: Option<string>)

  /** A transcript child, as far as sending touches it. */
  datatype Child = Child(messageId: string, category: string, content: Option<string>, mediaCreatedAt: Option<string>)

  datatype Owner = Owner(userId: UserId, isBot: bool)

  datatype Account = Account(userId: UserId)

  /** What the service consults: the logged-in account, the app-command
      detector for text, the media category list, the conversation table and
      its id derivation, and the text length limit. */
  datatype Env = Env(
    account: Option<Account>,
    sendsDirectlyToApp: (string, string, bool) -> bool,
    mediaCategories: set<string>,
    conversationExists: string -> bool,
    makeConversationId: (UserId, UserId) -> string,
    maxTextLength: nat)

  const Sending := "SENDING"
  const SignalPrefix := "SIGNAL_"
  const PlainPrefix := "PLAIN_"
  const AppCard := "APP_CARD"
  const WebRtcPrefix := "WEBRTC_"

  /** The recognised kinds, in the order their suffixes are checked. */
  const Kinds: seq<string> := ["TEXT", "IMAGE", "VIDEO", "DATA", "STICKER", "CONTACT", "AUDIO", "LIVE", "POST", "LOCATION", "TRANSCRIPT"]

  /** A message is end-to-end encrypted when sent to a group, or to a user
      that is known and not a bot. */
  function IsSignal(ownerUser: Option<Owner>, isGroupMessage: bool): (r: bool)
    ensures isGroupMessage ==> r
    ensures !isGroupMessage && ownerUser.None? ==> !r
    ensures !isGroupMessage && ownerUser.Some? ==> (r <==> !ownerUser.value.isBot)
  {
    isGroupMessage || (ownerUser.Some? && !ownerUser.value.isBot)
  }

  predicate HasKind(category: string, kind: string) {
    HasSuffix(category, "_" + kind)
  }

  /** The first kind in `Kinds[from..]` whose suffix the category carries. */
  function KindFrom(category: string, from: nat): (r: Option<nat>)
    requires from <= |Kinds|
    ensures r.Some? ==> from <= r.value < |Kinds| && HasKind(category, Kinds[r.value])
    ensures r.Some? ==> forall j :: from <= j < r.value ==> !HasKind(category, Kinds[j])
    ensures r.None? ==> forall j :: from <= j < |Kinds| ==> !HasKind(category, Kinds[j])
    decreases |Kinds| - from
  {
    if from == |Kinds| then None
    else if HasKind(category, Kinds[from]) then Some(from)
    else KindFrom(category, from + 1)
  }

  /** The index in `Kinds` of the branch a category takes, if any. */
  function KindOf(category: string): Option<nat> {
    KindFrom(category, 0)
  }

  function Family(signal: bool): string {
    if signal then SignalPrefix else PlainPrefix
  }

  /** The category rewrite of lines 20-49: text goes plain when the parent is
      plain or when the content is an app command, every other recognised kind
      follows the signal flag, and unrecognised categories are kept. */
  function NormalizeCategory(category: string, signal: bool, directToApp: bool): (r: string)
    ensures KindOf(category).None? ==> r == category
    ensures KindOf(category).Some? ==> r == Family(signal && !(Kinds[KindOf(category).value] == "TEXT" && directToApp)) + Kinds[KindOf(category).value]
  {
    match KindOf(category)
    case None => category
    case Some(k) =>
      if Kinds[k] == "TEXT" then Family(signal && !directToApp) + "TEXT"
      else Family(signal) + Kinds[k]
  }

  predicate NoUnderscore(s: string) {
    forall i :: 0 <= i < |s| ==> s[i] != '_'
  }

  lemma KindsWellFormed()
    ensures forall k :: 0 <= k < |Kinds| ==> NoUnderscore(Kinds[k])
    ensures forall j, k :: 0 <= j < k < |Kinds| ==> Kinds[j] != Kinds[k]
  {
  }

  /** In `family + kind`, where the family ends with the only underscore, the
      only `_`-led suffix without another underscore is `"_" + kind`. */
  lemma SuffixAlign(family: string, kind: string, other: string)
    requires |family| > 0 && family[|family| - 1] == '_'
    requires NoUnderscore(kind) && NoUnderscore(other)
    ensures HasSuffix(family + kind, "_" + other) ==> other == kind
  {
    var s := family + kind;
    var t := "_" + other;
    if HasSuffix(s, t) {
      var start := |s| - |t|;
      assert s[start] == '_' by { assert s[start..][0] == t[0]; }
      forall i | |family| <= i < |s| ensures s[i] != '_' {
        assert s[i] == kind[i - |family|];
      }
      assert start < |family|;
      assert s[|family| - 1] == '_';
      forall i | start < i < |s| ensures s[i] != '_' {
        assert s[i] == s[start..][i - start] == t[i - start] == other[i - start - 1];
      }
      assert start == |family| - 1;
      assert t == s[|family| - 1..];
      assert s[|family| - 1..] == "_" + kind;
      assert other == t[1..] == ("_" + kind)[1..] == kind;
    }
  }

  /** A category of the form `family + kind` carries that kind and no other. */
  lemma OnlyKind(signal: bool, k: nat, j: nat)
    requires k < |Kinds| && j < |Kinds|
    ensures HasKind(Family(signal) + Kinds[k], Kinds[j]) <==> j == k
  {
    KindsWellFormed();
    var f := Family(signal);
    SuffixAlign(f, Kinds[k], Kinds[j]);
    var c := f + Kinds[k];
    assert c[|c| - |"_" + Kinds[k]|..] == "_" + Kinds[k] by {
      assert c == f[..|f| - 1] + ("_" + Kinds[k]);
    }
  }

  /** A rewritten category belongs to the kind it was rewritten from. */
  lemma FamilyKind(signal: bool, k: nat)
    requires k < |Kinds|
    ensures KindOf(Family(signal) + Kinds[k]) == Some(k)
  {
    var c := Family(signal) + Kinds[k];
    OnlyKind(signal, k, k);
    forall j | 0 <= j < k ensures !HasKind(c, Kinds[j]) {
      OnlyKind(signal, k, j);
    }
    KindFirst(c, k);
  }

  lemma {:induction false} KindFirstFrom(c: string, k: nat, from: nat)
    requires from <= k < |Kinds| && HasKind(c, Kinds[k])
    requires forall j :: from <= j < k ==> !HasKind(c, Kinds[j])
    ensures KindFrom(c, from) == Some(k)
    decreases k - from
  {
    if from < k {
      KindFirstFrom(c, k, from + 1);
    }
  }

  lemma KindFirst(c: string, k: nat)
    requires k < |Kinds| && HasKind(c, Kinds[k])
    requires forall j :: 0 <= j < k ==> !HasKind(c, Kinds[j])
    ensures KindOf(c) == Some(k)
  {
    KindFirstFrom(c, k, 0);
  }

  /** Normalising twice is normalising once: the rewritten category stays in
      its kind, and the decision depends only on the same inputs. */
  lemma NormalizeIdempotent(category: string, signal: bool, directToApp: bool)
    ensures NormalizeCategory(NormalizeCategory(category, signal, directToApp), signal, directToApp)
         == NormalizeCategory(category, signal, directToApp)
  {
    match KindOf(category)
    case None =>
    case Some(k) =>
      if Kinds[k] == "TEXT" {
        FamilyKind(signal && !directToApp, k);
      } else {
        FamilyKind(signal, k);
      }
  }

  /** A recognised category ends up `SIGNAL_` exactly when the message is
      signal and is not app-bound text; otherwise `PLAIN_`. Either way it
      keeps its kind. */
  lemma NormalizeFamily(category: string, signal: bool, directToApp: bool)
    requires KindOf(category).Some?
    ensures var r := NormalizeCategory(category, signal, directToApp);
      var isText := Kinds[KindOf(category).value] == "TEXT";
      && (HasPrefix(r, SignalPrefix) <==> signal && !(isText && directToApp))
      && (HasPrefix(r, PlainPrefix) <==> !(signal && !(isText && directToApp)))
      && KindOf(r) == KindOf(category)
  {
    var k := KindOf(category).value;
    var s := signal && !(Kinds[k] == "TEXT" && directToApp);
    FamilyPrefix(s, Kinds[k]);
    FamilyKind(s, k);
  }

  lemma FamilyPrefix(signal: bool, kind: string)
    ensures HasPrefix(Family(signal) + kind, SignalPrefix) <==> signal
    ensures HasPrefix(Family(signal) + kind, PlainPrefix) <==> !signal
  {
    var r := Family(signal) + kind;
    assert r[..|Family(signal)|] == Family(signal);
    if signal {
      assert r[0] == 'S';
    } else {
      assert r[0] == 'P';
    }
  }

  // ---------------------------------------------------------------------
  // Transcript children

  /** Lines 50-68 for one child: a child of the other family has its family
      prefix replaced (`PLAIN_`, six characters, by `SIGNAL_`, or the
      reverse); a rewritten media child loses its upload so it is uploaded
      again; any other child is untouched. */
  function MatchChild(child: Child, signal: bool, mediaCategories: set<string>): (r: Child)
    ensures signal && HasPrefix(child.category, PlainPrefix) ==>
      r.category == SignalPrefix + child.category[|PlainPrefix|..]
    ensures !signal && HasPrefix(child.category, SignalPrefix) ==>
      r.category == PlainPrefix + child.category[|SignalPrefix|..]
    ensures r.messageId == child.messageId
    ensures r.category != child.category && r.category in mediaCategories ==>
      r.content.None? && r.mediaCreatedAt.None?
    ensures r.category == child.category ==> r == child
    ensures r.category != child.category && r.category !in mediaCategories ==>
      r == child.(category := r.category)
  {
    if signal && HasPrefix(child.category, PlainPrefix) then
      Rewrite(child, SignalPrefix + child.category[|PlainPrefix|..], mediaCategories)
    else if !signal && HasPrefix(child.category, SignalPrefix) then
      Rewrite(child, PlainPrefix + child.category[|SignalPrefix|..], mediaCategories)
    else child
  }

  function Rewrite(child: Child, category: string, mediaCategories: set<string>): Child {
    if category in mediaCategories then child.(category := category, mediaCreatedAt := None, content := None)
    else child.(category := category)
  }

  function MatchChildren(children: seq<Child>, signal: bool, mediaCategories: set<string>): (r: seq<Child>)
    ensures |r| == |children|
    ensures forall i :: 0 <= i < |r| ==> r[i] == MatchChild(children[i], signal, mediaCategories)
  {
    seq(|children|, i requires 0 <= i < |children| => MatchChild(children[i], signal, mediaCategories))
  }

  /** After matching, no child is left in the parent's opposite family. */
  lemma ChildrenMatchParent(children: seq<Child>, signal: bool, mediaCategories: set<string>)
    ensures forall i :: 0 <= i < |children| ==>
      !HasPrefix(MatchChildren(children, signal, mediaCategories)[i].category, Family(!signal))
  {
    forall i | 0 <= i < |children|
      ensures !HasPrefix(MatchChildren(children, signal, mediaCategories)[i].category, Family(!signal))
    {
      var c := MatchChildren(children, signal, mediaCategories)[i].category;
      if signal {
        if HasPrefix(children[i].category, PlainPrefix) {
          assert c[0] == 'S';
        } else {
          assert c == children[i].category;
        }
      } else {
        if HasPrefix(children[i].category, SignalPrefix) {
          assert c[0] == 'P';
        } else {
          assert c == children[i].category;
        }
      }
    }
  }

  /** Moving a plain child to the signal family and back restores its
      category. */
  lemma ChildFamilyRoundTrip(child: Child, mediaCategories: set<string>)
    requires HasPrefix(child.category, PlainPrefix)
    ensures MatchChild(MatchChild(child, true, mediaCategories), false, mediaCategories).category == child.category
  {
    var up := MatchChild(child, true, mediaCategories);
    assert HasPrefix(up.category, SignalPrefix);
    assert up.category[|SignalPrefix|..] == child.category[|PlainPrefix|..];
    assert child.category == PlainPrefix + child.category[|PlainPrefix|..];
  }

  // ---------------------------------------------------------------------
  // Text truncation

  /** Bytes needed to encode one scalar value in UTF-8. */
  function Utf8Width(ch: char): nat {
    if ch as int < 0x80 then 1 else if ch as int < 0x800 then 2 else if ch as int < 0x10000 then 3 else 4
  }

  /** `utf8.count`. */
  function Utf8Count(s: string): (n: nat)
    ensures n >= |s|
  {
    if s == [] then 0 else Utf8Width(s[0]) + Utf8Count(s[1..])
  }

  predicate IsTextLike(category: string) {
    HasSuffix(category, "_TEXT") || HasSuffix(category, "_POST")
  }

  /** Lines 89-91: text and post content longer than the limit in UTF-8
      bytes is cut to its first `limit` characters. */
  function TruncateContent(category: string, content: Option<string>, limit: nat): (r: Option<string>)
    ensures r.None? <==> content.None?
    ensures r.Some? ==> HasPrefix(content.value, r.value)
    ensures r.Some? && r != content ==> |r.value| == limit < |content.value|
    ensures content.Some? && (!IsTextLike(category) || Utf8Count(content.value) <= limit) ==> r == content
    ensures content.Some? && IsTextLike(category) && Utf8Count(content.value) > limit ==>
      r == Some(content.value[..if |content.value| <= limit then |content.value| else limit])
  {
    match content
    case Some(text) =>
      if IsTextLike(category) && Utf8Count(text) > limit
      then Some(if |text| <= limit then text else text[..limit])
      else content
    case None => None
  }

  /** Content whose UTF-8 form exceeds the limit but whose character count
      does not is kept whole: the cut counts characters, the test bytes. */
  lemma TruncationCountsCharacters()
    ensures TruncateContent("PLAIN_TEXT", Some("éé"), 3) == Some("éé")
    ensures Utf8Count("éé") == 4
  {
    assert Utf8Count("éé") == 2 + Utf8Count("é");
  }

  /** Truncation is idempotent: a cut text never exceeds the limit in
      characters, so cutting it again keeps it as it is. */
  lemma {:induction false} TruncateIdempotent(category: string, content: Option<string>, limit: nat)
    ensures var once := TruncateContent(category, content, limit);
      TruncateContent(category, once, limit) == once
  {
    var once := TruncateContent(category, content, limit);
    if once.Some? && IsTextLike(category) && Utf8Count(once.value) > limit {
      if once != content {
        assert |once.value| == limit;
        assert once.value[..limit] == once.value;
      } else {
        assert |content.value| <= limit;
        assert once.value[..|once.value|] == once.value;
      }
    }
  }

  // ---------------------------------------------------------------------
  // The whole send

  datatype JobKind = ImageUpload | VideoUpload | FileUpload | AudioUpload | TranscriptUpload

  /** How a stored message leaves the device. */
  datatype Route =
    | SendDirect(data: Option<string>, silent: bool)
    | Upload(job: JobKind)
    | SendBase64(content: Option<string>)
    | NoRoute

  datatype Delivery =
    | NoOwnerForConversation
    | NoRecipient
    | WebRtcSent(message: Message, recipientId: UserId)
    | Stored(message: Message, children: Option<seq<Child>>, route: Route)

  datatype NewConversation = NewConversation(conversationId: string, ownerUserId: UserId)

  datatype SendOutcome =
    | NotLoggedIn
    | Handled(created: Option<NewConversation>, delivery: Delivery)

  /** Lines 93-115: the route by the normalised category. Only the direct
      send forwards the caller's silent-notification flag. */
  function RouteFor(msg: Message, silent: bool): (r: Route)
    ensures r.SendDirect? <==> (HasKind(msg.category, "TEXT") || HasKind(msg.category, "POST") || HasKind(msg.category, "STICKER")
      || HasKind(msg.category, "CONTACT") || HasKind(msg.category, "LOCATION") || msg.category == AppCard)
    ensures r.SendDirect? ==> r.data == msg.content && r.silent == silent
    ensures r.SendBase64? ==> r.content == msg.content && HasKind(msg.category, "LIVE")
  {
    var c := msg.category;
    if HasKind(c, "TEXT") || HasKind(c, "POST") || HasKind(c, "STICKER") || HasKind(c, "CONTACT") || HasKind(c, "LOCATION") || c == AppCard
    then SendDirect(msg.content, silent)
    else if HasKind(c, "IMAGE") then Upload(ImageUpload)
    else if HasKind(c, "VIDEO") then Upload(VideoUpload)
    else if HasKind(c, "DATA") then Upload(FileUpload)
    else if HasKind(c, "AUDIO") then Upload(AudioUpload)
    else if HasKind(c, "TRANSCRIPT") then Upload(TranscriptUpload)
    else if HasKind(c, "LIVE") then SendBase64(msg.content)
    else NoRoute
  }

  /** Line 76: the message has no usable conversation yet. */
  predicate NeedsConversation(env: Env, message: Message) {
    message.conversationId == "" || !env.conversationExists(message.conversationId)
  }

  /** `sendMessage(message:children:ownerUser:isGroupMessage:silentNotification:)`. */
  function Send(env: Env, message: Message, children: Option<seq<Child>>, ownerUser: Option<Owner>, isGroupMessage: bool, silentNotification: bool): (r: SendOutcome)
    ensures r.NotLoggedIn? <==> env.account.None?
    ensures r.Handled? && r.delivery.Stored? ==>
      && r.delivery.message.userId == env.account.value.userId
      && r.delivery.message.status == Sending
      && r.delivery.message.messageId == message.messageId
      && !HasPrefix(message.category, WebRtcPrefix)
    ensures r.Handled? ==> (r.delivery.NoOwnerForConversation? <==> NeedsConversation(env, message) && ownerUser.None?)
    ensures r.Handled? && r.delivery.NoOwnerForConversation? ==> r.created.None?
    ensures r.Handled? && !r.delivery.NoOwnerForConversation? ==> (r.created.Some? <==> NeedsConversation(env, message))
    ensures r.Handled? && r.created.Some? ==>
      && ownerUser.Some?
      && r.created.value.ownerUserId == ownerUser.value.userId
      && r.created.value.conversationId == env.makeConversationId(env.account.value.userId, ownerUser.value.userId)
    ensures r.Handled? && HasPrefix(message.category, WebRtcPrefix) ==>
      && !r.delivery.Stored?
      && (r.delivery.WebRtcSent? <==> ownerUser.Some?)
      && (r.delivery.NoRecipient? <==> ownerUser.None? && !NeedsConversation(env, message))
    ensures r.Handled? && r.delivery.WebRtcSent? ==>
      && r.delivery.message == message
      && HasPrefix(message.category, WebRtcPrefix)
      && r.delivery.recipientId == ownerUser.value.userId
    ensures r.Handled? && r.delivery.Stored? ==>
      && r.delivery.message.conversationId == (if r.created.Some? then r.created.value.conversationId else message.conversationId)
      && r.delivery.route == RouteFor(r.delivery.message, silentNotification)
  {
    match env.account
    case None => NotLoggedIn
    case Some(account) =>
      var signal := IsSignal(ownerUser, isGroupMessage);
      var direct := message.content.Some? && env.sendsDirectlyToApp(message.content.value, message.conversationId, isGroupMessage);
      var category := NormalizeCategory(message.category, signal, direct);
      var kids := match children
        case Some(cs) => if KindOf(message.category).Some? && Kinds[KindOf(message.category).value] == "TRANSCRIPT"
                         then Some(MatchChildren(cs, signal, env.mediaCategories)) else children
        case None => None;
      var msg := message.(userId := account.userId, status := Sending, category := category);
      var needsConversation := NeedsConversation(env, msg);
      if needsConversation && ownerUser.None? then Handled(None, NoOwnerForConversation)
      else
        var created := if needsConversation
          then Some(NewConversation(env.makeConversationId(account.userId, ownerUser.value.userId), ownerUser.value.userId))
          else None;
        var placed := if needsConversation then msg.(conversationId := created.value.conversationId) else msg;
        if HasPrefix(message.category, WebRtcPrefix) then
          if ownerUser.None? then Handled(created, NoRecipient)
          else Handled(created, WebRtcSent(message, ownerUser.value.userId))
        else
          var stored := placed.(content := TruncateContent(placed.category, placed.content, env.maxTextLength));
          Handled(created, Stored(stored, kids, RouteFor(stored, silentNotification)))
  }

  /** Whether the conversation exists or is created on the spot, the stored
      message is the normalised one with its content truncated as text of
      its new category, and a transcript's children follow the parent. */
  lemma SendStoresNormalizedMessage(env: Env, message: Message, children: Option<seq<Child>>, ownerUser: Option<Owner>, isGroupMessage: bool, silentNotification: bool)
    requires env.account.Some?
    requires !HasPrefix(message.category, WebRtcPrefix)
    requires !NeedsConversation(env, message) || ownerUser.Some?
    ensures var r := Send(env, message, children, ownerUser, isGroupMessage, silentNotification);
      var signal := IsSignal(ownerUser, isGroupMessage);
      var direct := message.content.Some? && env.sendsDirectlyToApp(message.content.value, message.conversationId, isGroupMessage);
      var category := NormalizeCategory(message.category, signal, direct);
      && r.Handled? && r.delivery.Stored?
      && r.delivery.message.category == category
      && r.delivery.message.content == TruncateContent(category, message.content, env.maxTextLength)
      && r.delivery.message.mediaCreatedAt == message.mediaCreatedAt
      && (r.created.None? ==> r.delivery.message.conversationId == message.conversationId)
      && (children.Some? && KindOf(message.category).Some? && Kinds[KindOf(message.category).value] == "TRANSCRIPT"
          ==> r.delivery.children == Some(MatchChildren(children.value, signal, env.mediaCategories)))
      && (children.None? ==> r.delivery.children.None?)
  {
  }

  /** Every normalised kind is dispatched the way its family is documented:
      text, post, sticker, contact and location directly; image, video, data,
      audio and transcript through an upload job; live as base64. */
  lemma NormalizedKindsRoute(signal: bool, k: nat, m: Message, silent: bool)
    requires k < |Kinds| && m.category == Family(signal) + Kinds[k]
    ensures Kinds[k] in {"TEXT", "POST", "STICKER", "CONTACT", "LOCATION"} ==> RouteFor(m, silent).SendDirect?
    ensures Kinds[k] == "IMAGE" ==> RouteFor(m, silent) == Upload(ImageUpload)
    ensures Kinds[k] == "VIDEO" ==> RouteFor(m, silent) == Upload(VideoUpload)
    ensures Kinds[k] == "DATA" ==> RouteFor(m, silent) == Upload(FileUpload)
    ensures Kinds[k] == "AUDIO" ==> RouteFor(m, silent) == Upload(AudioUpload)
    ensures Kinds[k] == "TRANSCRIPT" ==> RouteFor(m, silent) == Upload(TranscriptUpload)
    ensures Kinds[k] == "LIVE" ==> RouteFor(m, silent) == SendBase64(m.content)
  {
    var c := m.category;
    forall j | 0 <= j < |Kinds| ensures HasKind(c, Kinds[j]) <==> j == k {
      OnlyKind(signal, k, j);
    }
    assert c != AppCard by { assert c[0] != 'A'; }
    assert Kinds[0] == "TEXT" && Kinds[1] == "IMAGE" && Kinds[2] == "VIDEO" && Kinds[3] == "DATA";
    assert Kinds[4] == "STICKER" && Kinds[5] == "CONTACT" && Kinds[6] == "AUDIO" && Kinds[7] == "LIVE";
    assert Kinds[8] == "POST" && Kinds[9] == "LOCATION" && Kinds[10] == "TRANSCRIPT";
    assert HasKind(c, Kinds[k]);
  }
}
