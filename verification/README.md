# Mixin messenger core, modelled in Dafny

This project models the decision and bookkeeping logic of the Mixin iOS
messenger. It covers:

- the **group-call roster** that backs the call grid. It holds an ordered
  member list, the set of tracked user ids and the set of users still being
  invited. Four events change it: start-inviting, connected, disconnected and
  a polled peer list.
- the **WebRTC peer session** that one call holds. This covers lazy
  construction of the peer connection after an ICE-server fetch that retries,
  `close()`, installing frame keys, registering receivers, and folding audio
  levels from a statistics report.
- the **`Call` value** a call session carries: its identity, its two progress
  flags and the strings derived from them.
- the **outgoing-message normalisation** in `SendMessageService`. A category
  is rewritten to its `SIGNAL_`/`PLAIN_` form and transcript children are
  made to match their parent. Text is truncated, and each message is
  classified for dispatch.
- a set of small pure rules:
  - the deposit entry an asset prefers, and its JSON decoding defaults;
  - the disappearing-message deadline;
  - query dictionaries;
  - OAuth scope assembly;
  - the message-status icon table;
  - transcript digests;
  - conversation pin/unpin reordering and the home feed's refresh gating;
  - the initial-screen priority chain;
  - video attachment auto-load and loading transitions;
  - the deposit-tip countdown;
  - clip-list maintenance;
  - home-app identity and categories.

Every Swift object with mutable state becomes an immutable datatype, and every
mutating method becomes a pure transition function. A transition returns the
new state together with what the original does to the outside world:

- a notification posted;
- grid items inserted or deleted;
- delegate events;
- frame keys installed;
- jobs enqueued;
- DAO updates.

The following are all parameters of the model:

- WebRTC objects are opaque handles.
- Localised strings are keys or parameters: the scope rows use a `Text` value
  (a literal, or a key with arguments), and transcript digests and home-app
  labels take the localised texts as parameters.
- DAO lookups, JSON codecs, `StreamId` parsing, the TURN server replies and
  the delegate's key lookup are function-typed or sequence parameters.

Each Dafny module follows one Swift source file, except that `VideoMessage`
also holds the `AutoDownload` setting it reads. `Common` holds
`Option`, `Result`, prefix/suffix tests, `Filter`, `CompactMap` and their
lemmas.

## Model

| member | source | states |
|---|---|---|
| GroupRoster.Init | Mixin/UserInterface/Controllers/Call/GroupCallMemberDataSource.swift:35-40 | The roster keeps the given members and inviting ids. The tracked set is exactly the members' ids. The state satisfies the roster invariant when the ids are distinct and every invitee is a member. |
| GroupRoster.FirstIndex | Mixin/UserInterface/Controllers/Call/GroupCallMemberDataSource.swift:79 | The position found holds the first member with that user id. None means no member has it. |
| GroupRoster.StartInviting | Mixin/UserInterface/Controllers/Call/GroupCallMemberDataSource.swift:57-74 | Existing members keep their order at the front. Only untracked users are appended, in input order, and they join both id sets. The grid inserts item `count + k` for the k-th added user. A notice is posted iff someone was added. Nothing changes when everyone is already tracked. |
| GroupRoster.StartInvitingAddsUntracked | Mixin/UserInterface/Controllers/Call/GroupCallMemberDataSource.swift:59-66 | A distinct, untracked batch of invitees is appended in full and in input order. |
| GroupRoster.MemberConnected | Mixin/UserInterface/Controllers/Call/GroupCallMemberDataSource.swift:76-93 | A member-changed notice is always posted, and the user always leaves the inviting set. A listed member keeps its position, the list and tracked set are unchanged, and the grid item of the first member with that id is reloaded. An unknown member is appended and tracked, and grid item `count` is inserted. |
| GroupRoster.MemberDisconnected | Mixin/UserInterface/Controllers/Call/GroupCallMemberDataSource.swift:95-106 | The id leaves both sets. If the user was listed, the first entry with that id is removed, its grid item is deleted and a notice is posted. Otherwise the list is unchanged and nothing is posted. |
| GroupRoster.ZombieItemsFrom | Mixin/UserInterface/Controllers/Call/GroupCallMemberDataSource.swift:150-160 | The grid items of zombie members are listed in strictly descending order. Each is in range and names a member that is neither polled nor the local user. |
| GroupRoster.Poll | Mixin/UserInterface/Controllers/Call/GroupCallMemberDataSource.swift:139-170 | A poll for another conversation, or one whose `userIds` entry is absent or not a list of strings, changes nothing. Otherwise the survivors are the members that were polled or are the local user, in their original order; an empty id list therefore leaves only the local user. The zombies leave both sets, and their grid items are deleted. |
| GroupRoster.ApplyPollInPlace | Mixin/UserInterface/Controllers/Call/GroupCallMemberDataSource.swift:150-165 | The source's reverse-index removal loop ends with exactly the survivors, the zombie id set and the descending deleted items that the poll specifies. |
| GroupRoster.ReportAudioLevels | Mixin/UserInterface/Controllers/Call/GroupCallMemberDataSource.swift:108-119 | The level cache is replaced. A member is speaking iff its cached level exceeds 0.01. An uncached member is silent. |
| GroupRoster.MemberAt | Mixin/UserInterface/Controllers/Call/GroupCallMemberDataSource.swift:121-137 | Item 0 (the add cell) and any item past the end give no member. Item i in range gives `members[i-1]`. |
| GroupRoster.GridLayout | Mixin/UserInterface/Controllers/Call/GroupCallMemberDataSource.swift:183-201 | The grid has `members.count + 1` items. The member at `indexPath(forMemberAt: k)` is `members[k]`. |
| GroupRoster.StartInvitingPreservesValid | Mixin/UserInterface/Controllers/Call/GroupCallMemberDataSource.swift:57-74 | Start-inviting with distinct ids keeps the invariants: the set mirrors the list, invitees are tracked, and ids are distinct. |
| GroupRoster.MemberConnectedPreservesValid | Mixin/UserInterface/Controllers/Call/GroupCallMemberDataSource.swift:76-93 | Connecting keeps the roster invariant. |
| GroupRoster.MemberDisconnectedPreservesValid | Mixin/UserInterface/Controllers/Call/GroupCallMemberDataSource.swift:95-106 | Disconnecting keeps the roster invariant. |
| GroupRoster.PollPreservesValid | Mixin/UserInterface/Controllers/Call/GroupCallMemberDataSource.swift:139-170 | A poll keeps the roster invariant. |
| GroupRoster.PollEvictsExactlyZombies | Mixin/UserInterface/Controllers/Call/GroupCallMemberDataSource.swift:150-165 | After an applicable poll, a previous member remains iff it was polled or is the local user. The survivors are a subsequence of the old list. |
| GroupRoster.PollNeverEvictsLocalUser | Mixin/UserInterface/Controllers/Call/GroupCallMemberDataSource.swift:156 | A poll never removes the local user, even when the polled ids omit it. |
| GroupRoster.RunPreservesValid | Mixin/UserInterface/Controllers/Call/GroupCallMemberDataSource.swift:27-40 | Any sequence of events whose invitations carry distinct ids keeps the roster invariant. |
| GroupRoster.RepeatedInviteeBreaksMirror | Mixin/UserInterface/Controllers/Call/GroupCallMemberDataSource.swift:59-66 | A batch that names the same user twice lists the user twice. A later disconnect then leaves a listed member that is no longer tracked. This is why distinct input ids are required. |
| GroupRoster.ScenarioInvite | Mixin/UserInterface/Controllers/Call/GroupCallMemberDataSource.swift:57-74 | In a concrete run, the local user invites two new users. Both are appended after the local user and are tracked and inviting. |
| GroupRoster.ScenarioConnect | Mixin/UserInterface/Controllers/Call/GroupCallMemberDataSource.swift:76-93 | In a concrete run, connecting an invitee keeps its position and clears its inviting mark. |
| GroupRoster.ScenarioPoll | Mixin/UserInterface/Controllers/Call/GroupCallMemberDataSource.swift:139-170 | In a concrete run, a poll listing the local user and one member evicts the other member from the list and both sets, and keeps the local user. |
| PeerSession.NewClient | Mixin/Service/Call/WebRTCClient.swift:25-31 | A new client is open and has no connection, track, sender, receivers or track owners. |
| PeerSession.NewClientIsHealthy | Mixin/Service/Call/WebRTCClient.swift:25-31 | A new client satisfies the session invariant. |
| PeerSession.IceState | Mixin/Service/Call/WebRTCClient.swift:33-39 | With no connection the ICE state is closed. Otherwise it is the connection's state. |
| PeerSession.AddRemoteCandidate | Mixin/Service/Call/WebRTCClient.swift:100-102 | Without a connection nothing changes. With one, the candidate is appended to it and nothing else changes. |
| PeerSession.SetFrameEncryptorKey | Mixin/Service/Call/WebRTCClient.swift:104-109 | A nil key, or a missing sender, installs nothing. Otherwise exactly one encryptor key is installed on the sender. |
| PeerSession.SetFrameDecryptorKey | Mixin/Service/Call/WebRTCClient.swift:111-116 | A key is installed iff it is non-nil and a receiver is registered under `StreamId(userId, sessionId)`. It is installed on that receiver. |
| PeerSession.Close | Mixin/Service/Call/WebRTCClient.swift:154-161 | The client becomes closed, and the connection, audio track, sender and receivers are cleared. The track-owner map is kept. |
| PeerSession.CloseIdempotent | Mixin/Service/Call/WebRTCClient.swift:154-161 | Closing twice equals closing once. |
| PeerSession.ClosedClientIgnoresKeys | Mixin/Service/Call/WebRTCClient.swift:104-116 | After close, neither key setter installs anything. |
| PeerSession.FirstSuccessFrom | Mixin/Service/Call/WebRTCClient.swift:249-267 | The first successful TURN reply at or after a position is found. Every reply before it failed. |
| PeerSession.LoadIceServersFrom | Mixin/Service/Call/WebRTCClient.swift:249-267 | Every failure is retried with no limit, and there is at least one request. Servers are delivered exactly when a success comes before the close is observed. The fetch stops once closed. It waits when replies run out. |
| PeerSession.LoadIceServers | Mixin/Service/Call/WebRTCClient.swift:249-267 | Starting from the first request, delivered servers are those of the first successful reply, made after exactly one request per reply up to it. When the replies run out with no success, one more request is outstanding. Without any success, nothing is delivered. |
| PeerSession.FailuresThenSuccessDeliverOnce | Mixin/Service/Call/WebRTCClient.swift:249-267 | A run of n failures and then a success, with no close, makes n+1 requests and delivers that success's servers once. |
| PeerSession.CloseStopsRetries | Mixin/Service/Call/WebRTCClient.swift:258-262 | A retry that observes the closed flag delivers nothing and issues no further request. |
| PeerSession.Build | Mixin/Service/Call/WebRTCClient.swift:290-306 | Building installs a fresh connection with the fetched servers, an enabled audio track and a sender. The encryptor key is installed only when one is given. Closed state, receivers and track owners are unchanged. |
| PeerSession.MakePeerConnectionIfNeeded | Mixin/Service/Call/WebRTCClient.swift:281-308 | An existing connection is reused with no fetch. Otherwise the requests made are those of the ICE-server fetch, and the completion runs exactly when the fetch delivers servers to a client still open. The connection then holds the servers of the first successful reply and the new handles, and the caller's key, if any, is installed on the new sender. A fetch still waiting leaves the client as it was; without a completion no key is installed and no connection is held. A client closed before the call builds nothing and is returned unchanged. The coupling of connection, track and sender is preserved. |
| PeerSession.ClosedMeanwhile | Mixin/Service/Call/WebRTCClient.swift:285-288 | After a fetch that observed `close()`, the client is closed. A client that was already closed is left as it was. |
| PeerSession.Describe | Mixin/Service/Call/WebRTCClient.swift:55-66 | The description succeeds iff the SDP was produced and serialised, and it is then set as the local description. Failure leaves the client unchanged and maps to the offer or answer construction error. |
| PeerSession.Offer | Mixin/Service/Call/WebRTCClient.swift:46-69 | The completion fires iff the connection construction completes. It succeeds exactly when the library gave a description that serialises, and then returns that JSON and sets it as the local description, after which remote candidates can be added. A failure carries the offer-construction error with the library's error. A newly built connection gets the caller's key; an existing one keeps the key log as it was. |
| PeerSession.Answer | Mixin/Service/Call/WebRTCClient.swift:71-88 | The completion fires iff the connection construction completes. It succeeds exactly when the library gave a description that serialises, and then returns that JSON and sets it as the local description. A failure carries the answer-construction error with the library's error. Answering installs no frame key. |
| PeerSession.SetRemoteDescription | Mixin/Service/Call/WebRTCClient.swift:90-98 | The completion fires iff the connection construction completes, and it receives the transport error unchanged. Without an error, the remote description is recorded on the connection. |
| PeerSession.SecondOfferReusesConnection | Mixin/Service/Call/WebRTCClient.swift:281-284 | Once a connection exists, a further offer makes no TURN request and keeps the same connection handle. |
| PeerSession.PeerStateChanged | Mixin/Service/Call/WebRTCClient.swift:183-193 | Connected emits the connected event and disconnected emits the disconnected event. Other states change nothing. Only the event list ever changes. |
| PeerSession.IceStateDidChange | Mixin/Service/Call/WebRTCClient.swift:195-199 | Every ICE state change is forwarded once to the delegate. The ICE state query then reports the new state whenever a connection exists. |
| PeerSession.LocalCandidateGenerated | Mixin/Service/Call/WebRTCClient.swift:231-235 | Every local candidate is forwarded once to the delegate. |
| PeerSession.RegisterStream | Mixin/Service/Call/WebRTCClient.swift:210-223 | An accepted stream emits one receiver-added event. The receiver is registered, and its decryptor key installed, only when the delegate supplied a key. The track is recorded as that user's whether or not a key came. |
| PeerSession.RegisterStreams | Mixin/Service/Call/WebRTCClient.swift:205-225 | Registering a list of streams emits one event per stream, in order. |
| PeerSession.RegisterStreamsReceivers | Mixin/Service/Call/WebRTCClient.swift:210-217 | After registration, the registered receivers are exactly those under the stream keys the delegate keyed. |
| PeerSession.RegisterStreamsTracks | Mixin/Service/Call/WebRTCClient.swift:218-220 | A receiver with a track is attributed to the owner of the last accepted stream. Without a track, or with no streams, the map is unchanged. |
| PeerSession.RegisterStreamsKeyLog | Mixin/Service/Call/WebRTCClient.swift:211-216 | Registration only appends to the key log. Every key it appends is a decryptor key on the new receiver. |
| PeerSession.DidAddReceiverSkipsUnparsableAndLocal | Mixin/Service/Call/WebRTCClient.swift:205-209 | Stream ids that do not parse, and streams owned by the local user, produce no event, registration or key. |
| PeerSession.DidAddReceiverNeverTracksLocalUser | Mixin/Service/Call/WebRTCClient.swift:205-225 | Receiving never attributes a track to the local user. |
| PeerSession.FoldLevels | Mixin/Service/Call/WebRTCClient.swift:122-146 | The fold only reports the local user and users owning known tracks. When the local track is disabled, the local user's level is 0. |
| PeerSession.LevelStep | Mixin/Service/Call/WebRTCClient.swift:122-144 | A sender statistic sets the local user's level: 0 while the local track is disabled, otherwise the `audioLevel` of its `mediaSourceId` statistic, and nothing when either is missing. A receiver statistic sets the level of the owner of its `trackIdentifier` to its own `audioLevel`; an unknown track or a missing level changes nothing. Any other statistic changes nothing, and no other entry changes. |
| PeerSession.AudioLevels | Mixin/Service/Call/WebRTCClient.swift:118-152 | Levels are produced iff a connection exists. Every key is the local user or a track owner. |
| PeerSession.MutedLocalLevelIsZero | Mixin/Service/Call/WebRTCClient.swift:120-133 | With the local track disabled, the fold gives the local user a level of 0. Once a sender statistic appears in the enumeration, that entry is always present. |
| PeerSession.MutedLocalAudioLevel | Mixin/Service/Call/WebRTCClient.swift:117-133 | On a report whose enumeration visits each key exactly once, a muted or absent local track gives the local user exactly 0. The entry is present whenever the report holds a sender statistic. |
| PeerSession.FoldLevelsSnoc | Mixin/Service/Call/WebRTCClient.swift:120-146 | Folding one more statistic is one more step on the levels gathered so far. |
| PeerSession.FoldLevelsLastWins | Mixin/Service/Call/WebRTCClient.swift:120-146 | For every user, the fold reports the level of the last statistic in enumeration order that reports that user, or keeps the starting entry when none does. For a remote user, this is the last receiver statistic whose track the user owns and that has an `audioLevel`. |
| PeerSession.AudioLevelsLastWins | Mixin/Service/Call/WebRTCClient.swift:117-146 | With a connection, `audioLevels` reports a user iff some statistic reports that user, and at the level of the last such statistic. |
| PeerSession.AudioLevelsScenario | Mixin/Service/Call/WebRTCClient.swift:122-144 | In a concrete report, an enabled local track reads its media source's level. A receiver with a known track reads its own level. A receiver with an unknown track is dropped. |
| PeerSession.SetAudioEnabled | Mixin/Service/Call/WebRTCClient.swift:25 | Only the audio track's enabled flag changes, and only when a track exists. |
| PeerSession.ApplyKeepsHealthy | Mixin/Service/Call/WebRTCClient.swift:154-308 | Every operation keeps the session invariant. Connection, track and sender exist together. A closed client has no connection. The local user never owns a remote track. Closing is permanent. |
| PeerSession.RunKeepsHealthy | Mixin/Service/Call/WebRTCClient.swift:154-308 | Any sequence of operations from a healthy client keeps the invariant, and a closed client stays closed. |
| CallSession.NewCall | Mixin/Service/Call/Call.swift:17-21 | A new call stores its uuid, opponent and direction. It has no connected date and has not received the remote answer. |
| CallSession.ApplyUpdate | Mixin/Service/Call/Call.swift:10-11 | Identity fields never change. Each update sets only its own mutable field. |
| CallSession.UpdatesKeepIdentity | Mixin/Service/Call/Call.swift:6-15 | No sequence of updates changes the uuid, opponent, direction, uuid string, raising user or conversation id. |
| CallSession.RaisedByUserId | Mixin/Service/Call/Call.swift:15 | An outgoing call is raised by the local user. An incoming call is raised by the opponent. |
| CallSession.ConversationIdIsSendConversation | Mixin/Service/Call/Call.swift:14 | The call's conversation id is the one the send service derives for the opponent: sending to the opponent with no conversation yet creates exactly that conversation. |
| CallSession.UuidStringFaithful | Mixin/Service/Call/Call.swift:13 | The uuid string has 36 characters and no upper-case letter. Parsing it gives the uuid back. |
| CallSession.LowercasedRender | Mixin/Service/Call/Call.swift:13 | Lower-casing the rendering with upper-case digits gives the rendering with lower-case digits. |
| CallSession.RenderLength | Mixin/Service/Call/Call.swift:13 | The rendering from byte `i` has two characters per byte plus the hyphens still to come, so a whole uuid renders to 36 characters. |
| CallSession.RenderAlphabet | Mixin/Service/Call/Call.swift:13 | Every rendered character is a hyphen or one of the digits used. |
| CallSession.ParseFrom | Mixin/Service/Call/Call.swift:13 | A successful parse from byte `i` gives exactly the remaining `16 - i` bytes. |
| CallSession.UuidString | Mixin/Service/Call/Call.swift:13 | Lower-casing Foundation's upper-case text gives the rendering with lower-case digits, 36 characters long. |
| CallSession.UuidStringInjective | Mixin/Service/Call/Call.swift:13 | Distinct uuids have distinct strings. |
| CallSession.UuidStringIsLowercase | Mixin/Service/Call/Call.swift:13 | Lower-casing the uuid string changes nothing. |
| CallSession.ParseRender | Mixin/Service/Call/Call.swift:13 | Parsing the lower-case rendering of a uuid, from any byte position on, gives back the remaining bytes. |
| SendMessage.NormalizeCategory | Mixin/Service/Message/SendMessageService+Sending.swift:15-49 | A category with no recognised suffix is unchanged. Otherwise it becomes `SIGNAL_<kind>` or `PLAIN_<kind>`, for the first matching kind. Text goes plain when the message is not signal or goes directly to an app. |
| SendMessage.IsSignal | Mixin/Service/Message/SendMessageService+Sending.swift:15-18 | Group messages are always end-to-end encrypted. A direct message is encrypted exactly when its owner is known and is not a bot; an unknown owner counts as a bot. |
| SendMessage.KindFrom | Mixin/Service/Message/SendMessageService+Sending.swift:20-49 | The kind found is the first in the source's suffix order that the category carries; none is found only when no later kind matches. |
| SendMessage.NormalizeIdempotent | Mixin/Service/Message/SendMessageService+Sending.swift:20-49 | Normalising twice equals normalising once. |
| SendMessage.NormalizeFamily | Mixin/Service/Message/SendMessageService+Sending.swift:30-49 | A recognised category keeps its kind and gets the family its signal-ness demands. |
| SendMessage.FamilyPrefix | Mixin/Service/Message/SendMessageService+Sending.swift:20-49 | A normalised category starts with `SIGNAL_` iff signal, and with `PLAIN_` iff not. |
| SendMessage.FamilyKind | Mixin/Service/Message/SendMessageService+Sending.swift:30-49 | `<family>_<kind>` is recognised as exactly that kind. |
| SendMessage.KindsWellFormed | Mixin/Service/Message/SendMessageService+Sending.swift:20-49 | The eleven kinds are distinct and contain no underscore, so at most one suffix matches. |
| SendMessage.MatchChild | Mixin/Service/Message/SendMessageService+Sending.swift:50-68 | Under a signal parent a `PLAIN_` child becomes `SIGNAL_`, and under a plain parent a `SIGNAL_` child becomes `PLAIN_`. A rewritten media child loses its media date and content. Any other child is untouched. |
| SendMessage.MatchChildren | Mixin/Service/Message/SendMessageService+Sending.swift:50-69 | Each child is matched to the parent, in order. |
| SendMessage.ChildrenMatchParent | Mixin/Service/Message/SendMessageService+Sending.swift:50-69 | After matching, no child carries the opposite family's prefix. |
| SendMessage.ChildFamilyRoundTrip | Mixin/Service/Message/SendMessageService+Sending.swift:52-62 | Swapping a `PLAIN_` child to signal and back restores its category. |
| SendMessage.Utf8Count | Mixin/Service/Message/SendMessageService+Sending.swift:89 | The UTF-8 byte count is never below the character count. |
| SendMessage.TruncateContent | Mixin/Service/Message/SendMessageService+Sending.swift:89-91 | Absent content stays absent. Content that is not text or post, or whose UTF-8 byte count is within the limit, is unchanged. Otherwise it becomes its first `limit` characters, or stays whole when it has no more characters than that. |
| SendMessage.TruncationCountsCharacters | Mixin/Service/Message/SendMessageService+Sending.swift:89-90 | The test counts bytes but the cut counts characters. "éé" is 4 bytes, yet its 3-character prefix is the whole string. |
| SendMessage.TruncateIdempotent | Mixin/Service/Message/SendMessageService+Sending.swift:89-91 | Truncating an already truncated content changes nothing. |
| SendMessage.RouteFor | Mixin/Service/Message/SendMessageService+Sending.swift:93-115 | Text, post, sticker, contact, location and app cards are sent directly with their content and the caller's silent-notification flag. Live messages are sent as base64 of the content. |
| SendMessage.NormalizedKindsRoute | Mixin/Service/Message/SendMessageService+Sending.swift:93-115 | A normalised message is sent directly, uploaded with the job for its kind, or sent as base64 for live. |
| SendMessage.Send | Mixin/Service/Message/SendMessageService+Sending.swift:6-118 | Nothing happens iff there is no account. A missing or unknown conversation without an owner stops the send; otherwise a conversation is created exactly when it is missing, with the id derived from the account and the owner. A `WEBRTC_` message is never stored: it is sent unnormalised to the owner, or dropped for lack of a recipient. A stored message keeps its message id, carries the account's user id, the SENDING status and the created or existing conversation, and is routed by its stored form with the silent-notification flag. |
| SendMessage.SendStoresNormalizedMessage | Mixin/Service/Message/SendMessageService+Sending.swift:7-118 | Whenever a non-`WEBRTC_` message can be placed (its conversation exists, or there is an owner to create one), the stored message has the normalised category and the content truncated as text of that category, keeps its media date, and a transcript's children are rewritten to the parent's family. |
| AssetModel.FirstPayToWitness | MixinServices/MixinServices/Database/User/Model/Asset.swift:40-41 | The first pay-to-witness entry is found. None means no entry is pay-to-witness. |
| AssetModel.PreferredDepositEntry | MixinServices/MixinServices/Database/User/Model/Asset.swift:39-45 | There is no entry iff there are none. A sole entry is chosen. The choice is always one of the entries, and is the first entry unless it is pay-to-witness. |
| AssetModel.PreferredIsFirstWitness | MixinServices/MixinServices/Database/User/Model/Asset.swift:40-41 | When some entry is pay-to-witness, the preferred entry is the first such one. |
| AssetModel.PreferredFallsBackToFirst | MixinServices/MixinServices/Database/User/Model/Asset.swift:40-41 | When no entry is pay-to-witness, the first entry is preferred. |
| AssetModel.ChainsExclusive | MixinServices/MixinServices/Database/User/Model/Asset.swift:109-138 | The Bitcoin, EOS and ERC-20 chain tests exclude each other. XRP, which uses a tag, supports deposits. |
| AssetModel.DepositUnsupportedExactlyThree | MixinServices/MixinServices/Database/User/Model/Asset.swift:130-138 | Exactly three asset ids refuse deposits. |
| AssetModel.DecodeString | MixinServices/MixinServices/Database/User/Model/Asset.swift:47-65 | A required string decodes iff the key is present with a string. A missing key reports key-not-found. |
| AssetModel.DecodeStringIfPresent | MixinServices/MixinServices/Database/User/Model/Asset.swift:47-65 | An absent or null key decodes to nil, a string decodes to itself, and anything else is a type mismatch. |
| AssetModel.DecodeIntIfPresent | MixinServices/MixinServices/Database/User/Model/Asset.swift:58 | An absent or null key decodes to nil. A decoded integer fits 64 bits. |
| AssetModel.DecodeStrings | MixinServices/MixinServices/Database/User/Model/Asset.swift:64 | A decoded array of strings keeps the length and elements. |
| AssetModel.DecodeEntry | MixinServices/MixinServices/Database/User/Model/Asset.swift:6-16 | A decoded entry's destination and tag are the strings under those keys, and absent properties mean the key was missing or null. A missing destination is reported as that key not found. A null entry is a missing value. |
| AssetModel.DecodeEntries | MixinServices/MixinServices/Database/User/Model/Asset.swift:64 | A decoded entry array keeps its length. |
| AssetModel.DecodeAsset | MixinServices/MixinServices/Database/User/Model/Asset.swift:47-65 | Decoding needs `asset_id`, and fails with key-not-found when it is absent. It succeeds exactly when the name, amount and chain groups all decode. Every optional string field is the string under its key, or "" when the key is absent or null. `confirmations` is the number under its key, or 0. `deposit_entries` that is absent or null gives no entries, and an array gives its decoded entries. |
| AssetModel.StringOr | MixinServices/MixinServices/Database/User/Model/Asset.swift:50-63 | `decodeIfPresent(String) ?? ""` succeeds iff the key is absent, null or a string. The value is that string or "". A failure is a type mismatch at that key. |
| AssetModel.DecodeNames | MixinServices/MixinServices/Database/User/Model/Asset.swift:49-53 | Succeeds iff `asset_id` is a string and `type`, `symbol`, `name` and `icon_url` are absent, null or strings. Each field comes from its own key. |
| AssetModel.DecodeAmounts | MixinServices/MixinServices/Database/User/Model/Asset.swift:54-58 | Succeeds iff `balance`, `destination`, `tag`, `price_btc` and `price_usd` are absent, null or strings. Each field comes from its own key. |
| AssetModel.DecodeChainInfo | MixinServices/MixinServices/Database/User/Model/Asset.swift:59-64 | Succeeds iff the chain strings are absent, null or strings, `confirmations` is absent, null or a 64-bit number, and `deposit_entries` is absent, null or an array that decodes. Each field comes from its own key with its default. |
| AssetModel.DecodeDefaults | MixinServices/MixinServices/Database/User/Model/Asset.swift:47-65 | An object holding only `asset_id` decodes with empty strings, zero confirmations, no deposit entries and the nil optionals. |
| AssetModel.EncodeStrings | MixinServices/MixinServices/Database/User/Model/Asset.swift:86-103 | Each string is encoded as a JSON string, in order. |
| AssetModel.EncodeAsset | MixinServices/MixinServices/Database/User/Model/Asset.swift:86-103 | The encoded object carries the asset id under `asset_id`, and no field is encoded as null. |
| AssetModel.DecodeEncodeStrings | MixinServices/MixinServices/Database/User/Model/Asset.swift:64 | Decoding encoded strings gives them back. |
| AssetModel.DecodeEncodeEntry | MixinServices/MixinServices/Database/User/Model/Asset.swift:6-16 | Decoding an encoded deposit entry gives it back. |
| AssetModel.DecodeEncodeEntries | MixinServices/MixinServices/Database/User/Model/Asset.swift:64 | Decoding encoded deposit entries gives them back. |
| AssetModel.DecodeEncodeNames | MixinServices/MixinServices/Database/User/Model/Asset.swift:49-54 | The naming fields round-trip through the coding keys. |
| AssetModel.DecodeEncodeAmounts | MixinServices/MixinServices/Database/User/Model/Asset.swift:55-60 | The amount fields round-trip through the coding keys. |
| AssetModel.DecodeEncodeChainInfo | MixinServices/MixinServices/Database/User/Model/Asset.swift:61-65 | The chain fields round-trip through the coding keys. |
| AssetModel.DecodeEncodeAsset | MixinServices/MixinServices/Database/User/Model/Asset.swift:47-103 | Decoding an encoded asset gives it back. |
| ExpiredMessageModel.TruncateTowardZero | MixinServices/MixinServices/Database/User/Model/ExpiredMessage.swift:16 | Converting a Double to Int64 drops the fraction toward zero. |
| ExpiredMessageModel.NewExpiredMessage | MixinServices/MixinServices/Database/User/Model/ExpiredMessage.swift:10-19 | The id and duration are stored unchanged, and an explicit deadline is kept. With no deadline, one is computed iff the duration exceeds one day, and it is then `now + expireIn` truncated. |
| ExpiredMessageModel.DeadlineBeyondOneDay | MixinServices/MixinServices/Database/User/Model/ExpiredMessage.swift:15-17 | With no deadline and a duration over a day, the deadline lies within a second of `now + expireIn`. |
| ExpiredMessageModel.OneDayIsNotEnough | MixinServices/MixinServices/Database/User/Model/ExpiredMessage.swift:15 | Exactly 86400 seconds gives no deadline. One second more gives one. |
| UrlExtension.UrlKeyVals | Mixin/Extension/URLExtension.swift:15-17 | A URL without components, or without query items, gives an empty dictionary. |
| UrlExtension.FoldKeyValsLastWins | Mixin/Extension/URLExtension.swift:68-76 | The keys are exactly the item names. Each value is that name's last occurrence, with nil read as "". |
| UrlExtension.GetKeyVals | Mixin/Extension/URLExtension.swift:68-76 | The loop builds the dictionary of the query items. Nil items give an empty dictionary, and the keys are exactly the item names. |
| UrlExtension.DuplicateNameLastWins | Mixin/Extension/URLExtension.swift:71-73 | Of two items with the same name, the second value wins. |
| UrlExtension.PathSuffix | Mixin/Extension/URLExtension.swift:61-63 | The suffix has `path.count - base.path.count` characters and ends the path. |
| UrlExtension.PathSuffixCompletesBase | Mixin/Extension/URLExtension.swift:61-63 | When the base path is a prefix of the path, base plus suffix is the path. |
| ScopeModel.AssetsBalanceText | Mixin/UserInterface/Controllers/Setting/Model/Scope.swift:68-81 | No assets give "0" and one asset gives its text. Two are joined by ", ". Three or more put the first two into the "more" template. |
| ScopeModel.CompleteScopeInfo | Mixin/UserInterface/Controllers/Setting/Model/Scope.swift:17-66 | With no account the result is no entries and `PROFILE:READ`. Otherwise both outputs list the granted scopes and have equal length, and `scopes[i]` is the raw value of `result[i]`. |
| ScopeModel.InfoDependencies | Mixin/UserInterface/Controllers/Setting/Model/Scope.swift:17-66 | Only the profile and phone rows depend on the account and only the assets row on the balances. Every row's name is a localised key without arguments, and distinct scopes have distinct names. |
| ScopeModel.GrantedScopesMembership | Mixin/UserInterface/Controllers/Setting/Model/Scope.swift:21-64 | PROFILE comes first and exactly once. Every other scope appears iff its raw value was requested, and unknown requests are ignored. |
| ScopeModel.GrantedScopesOrdered | Mixin/UserInterface/Controllers/Setting/Model/Scope.swift:25-64 | The other scopes follow the fixed display order. |
| ScopeModel.RequestOrderIrrelevant | Mixin/UserInterface/Controllers/Setting/Model/Scope.swift:25-64 | Requests with the same set of strings give the same output, whatever their order or repetition. |
| ScopeModel.RawValuesDistinct | Mixin/UserInterface/Controllers/Setting/Model/Scope.swift:4-15 | No two scopes share a raw value. |
| ScopeModel.InDisplayOrder | Mixin/UserInterface/Controllers/Setting/Model/Scope.swift:25-64 | Every scope except PROFILE has a place in the display order. |
| DetailInfo.ParseStatus | Mixin/UserInterface/Controllers/Chat/Model/DetailInfoMessageViewModel.swift:95-98 | A status string parses only to the status with exactly that raw name. |
| DetailInfo.ParseStatusName | Mixin/UserInterface/Controllers/Chat/Model/DetailInfoMessageViewModel.swift:95-98 | Every status name parses back to that status. |
| DetailInfo.Refresh | Mixin/UserInterface/Controllers/Chat/Model/DetailInfoMessageViewModel.swift:94-122 | An unknown status gives no icon and keeps the tint, and so does a hidden indicator. When shown: sending, failed and unknown give pending in the normal tint. Sent gives a checkmark in the normal tint. Delivered gives a double check in the normal tint, and read gives one in the highlight tint. |
| DetailInfo.NewIndicator | Mixin/UserInterface/Controllers/Chat/Model/DetailInfoMessageViewModel.swift:53-59 | A new view model keeps the status and direction given. When it shows no icon, its tint is normal. |
| DetailInfo.SetStatus | Mixin/UserInterface/Controllers/Chat/Model/DetailInfoMessageViewModel.swift:39-47 | Setting the status stores it. The icon is the one a fresh view model would show, and so is the tint whenever an icon is shown. |
| DetailInfo.SetStatusIdempotent | Mixin/UserInterface/Controllers/Chat/Model/DetailInfoMessageViewModel.swift:39-47 | Setting the same status twice equals setting it once. |
| DetailInfo.IconIgnoresHistory | Mixin/UserInterface/Controllers/Chat/Model/DetailInfoMessageViewModel.swift:94-122 | The icon depends only on status and direction, except that an unknown status keeps the previous tint. |
| DetailInfo.ReceivedShowsOnlyFailure | Mixin/UserInterface/Controllers/Chat/Model/DetailInfoMessageViewModel.swift:35-37 | A received message shows an icon only when it failed. |
| DetailInfo.SentShowsEveryKnownStatus | Mixin/UserInterface/Controllers/Chat/Model/DetailInfoMessageViewModel.swift:35-37 | A sent message shows an icon for every known status. |
| DetailInfo.FullnameWidth | Mixin/UserInterface/Controllers/Chat/Model/DetailInfoMessageViewModel.swift:49-89 | The width is never below 44. It is exactly the measured width when that fits between 44 and the content width. A measured width at or over the content width gives the content width, or 44 when the content is narrower than that. |
| DetailInfo.FullnameWidthClamps | Mixin/UserInterface/Controllers/Chat/Model/DetailInfoMessageViewModel.swift:49 | A wider measured name never gives a narrower label, and feeding a label width back in keeps it. |
| Transcript.Contents | Mixin/UserInterface/Controllers/Chat/Model/TranscriptMessageViewModel.swift:29-33 | Absent or undecodable content gives no children. Decoded content gives the decoded children. |
| Transcript.Digest | Mixin/UserInterface/Controllers/Chat/Model/TranscriptMessageViewModel.swift:65-101 | A digest is the sender prefix (`name + ": "`, or nothing without a name) followed exactly by the kind-specific body. |
| Transcript.DigestsUpTo | Mixin/UserInterface/Controllers/Chat/Model/TranscriptMessageViewModel.swift:34-36 | The digests cover the first `min(4, count)` children, each in order. |
| Transcript.NewTranscriptView | Mixin/UserInterface/Controllers/Chat/Model/TranscriptMessageViewModel.swift:28-38 | The view holds the decoded children and at most four digests. |
| Transcript.DigestsIgnoreTail | Mixin/UserInterface/Controllers/Chat/Model/TranscriptMessageViewModel.swift:34-36 | Children after the fourth do not affect the digests. |
| Transcript.TextDigest | Mixin/UserInterface/Controllers/Chat/Model/TranscriptMessageViewModel.swift:73-90 | Text and post children show their content, or " " when it is nil. |
| Transcript.MediaDigest | Mixin/UserInterface/Controllers/Chat/Model/TranscriptMessageViewModel.swift:76-92 | Image, video, data, sticker, contact, audio, live and location children, signal or plain, are digested as the sender prefix followed by their own placeholder. |
| Transcript.AppCardDigest | Mixin/UserInterface/Controllers/Chat/Model/TranscriptMessageViewModel.swift:93-96 | An app card shows `[title]` after the name prefix when it decodes, and nothing after it otherwise. |
| Transcript.UnknownDigest | Mixin/UserInterface/Controllers/Chat/Model/TranscriptMessageViewModel.swift:97-98 | An unrecognised category shows the unknown-message placeholder. |
| Transcript.LinkRanges | Mixin/UserInterface/Controllers/Chat/Model/TranscriptMessageViewModel.swift:40-42 | A transcript has no link ranges. |
| Home.TogglePin | Mixin/UserInterface/Controllers/Home/HomeViewController.swift:469-491 | The list keeps its length, and its other rows keep their order. The moved conversation's pin time is set or cleared and saved. Pinning moves it to row 0. Unpinning puts it before the first unpinned conversation created earlier, or at the end. |
| Home.TogglePinPermutes | Mixin/UserInterface/Controllers/Home/HomeViewController.swift:476-484 | Pinning or unpinning only permutes the conversation ids. |
| Home.TogglePinPreservesOrdered | Mixin/UserInterface/Controllers/Home/HomeViewController.swift:469-491 | A list with pinned conversations first and unpinned ones from newest to oldest keeps that shape after a toggle. |
| Home.PinKeepsOrder | Mixin/UserInterface/Controllers/Home/HomeViewController.swift:472-477 | Pinning with the newest pin time keeps the list ordered. |
| Home.UnpinKeepsOrder | Mixin/UserInterface/Controllers/Home/HomeViewController.swift:478-484 | Unpinning into the slot the source computes keeps the list ordered. |
| Home.FirstReturnSlot | Mixin/UserInterface/Controllers/Home/HomeViewController.swift:478-483 | The unpin destination is the first unpinned row created earlier, or the end. |
| Home.BeforeTotal | Mixin/UserInterface/Controllers/Home/HomeViewController.swift:474-480 | Timestamp strings are totally ordered. |
| Home.BeforeAsymmetric | Mixin/UserInterface/Controllers/Home/HomeViewController.swift:474-480 | The timestamp order is asymmetric. |
| Home.BeforeTransitive | Mixin/UserInterface/Controllers/Home/HomeViewController.swift:474-480 | The timestamp order is transitive. |
| Home.FetchConversations | Mixin/UserInterface/Controllers/Home/HomeViewController.swift:431-441 | A fetch starts iff logged in and not refreshing, with `refreshing` set and `needRefresh` cleared. While refreshing it only sets `needRefresh`. |
| Home.WillDisplay | Mixin/UserInterface/Controllers/Home/HomeViewController.swift:374-387 | Load-more fires only with at least 30 rows, within the last 10 rows, and while not refreshing. While refreshing it only marks a refresh as needed. |
| Home.FinishFetch | Mixin/UserInterface/Controllers/Home/HomeViewController.swift:458-463 | A finished fetch clears `refreshing`. It starts another fetch iff one was requested meanwhile and the user is logged in. |
| Home.DataDidChange | Mixin/UserInterface/Controllers/Home/HomeViewController.swift:265-271 | On screen, a data change fetches (exactly when logged in and no fetch runs). Off screen, it only marks a refresh as owed and starts nothing. |
| Home.WillAppear | Mixin/UserInterface/Controllers/Home/HomeViewController.swift:107-115 | Appearing starts a fetch exactly when a refresh is owed, the user is logged in and no fetch runs; with nothing owed it changes nothing. |
| Home.HiddenChangeFetchedOnAppear | Mixin/UserInterface/Controllers/Home/HomeViewController.swift:107-115 | A data change while the screen is hidden is fetched when it appears again, or by the continuation of the fetch running then. |
| Home.RunFeed | Mixin/UserInterface/Controllers/Home/HomeViewController.swift:265-463 | Over any run of display, fetch, data-change, appear and finish events, fetches started plus one running at the start equal fetches finished plus one running at the end. So at most one runs at a time. |
| Home.RequestDuringFetchIsDeferred | Mixin/UserInterface/Controllers/Home/HomeViewController.swift:435-463 | A request during a fetch starts another fetch when the first finishes. |
| Home.BulletinReturnsAfterTwoDays | Mixin/UserInterface/Controllers/Home/HomeViewController.swift:645-657 | With notifications allowed the bulletin is always hidden. When denied, it is hidden iff it was dismissed less than two days ago, and once shown again it stays shown as time passes. |
| Home.RequestReviewIfNeeded | Mixin/UserInterface/Controllers/Home/HomeViewController.swift:618-632 | A review is requested iff not yet tried, a transfer was made and more than 7 days passed since first launch. The tried flag is set whenever the first launch date is known. |
| Home.ReviewRequests | Mixin/UserInterface/Controllers/Home/HomeViewController.swift:618-632 | Over any run of calls, at most one review is requested, and none once the attempt flag is set. |
| InitialScreen.TrimEmptyIffBlank | Mixin/UserInterface/Controllers/Common/InitialViewControllerFactory.swift:15 | Trimming whitespace and newlines leaves nothing iff every character is whitespace. |
| InitialScreen.TrimLeading | Mixin/UserInterface/Controllers/Common/InitialViewControllerFactory.swift:15 | Dropping leading whitespace leaves a suffix that is empty or starts with a non-blank character. |
| InitialScreen.TrimTrailing | Mixin/UserInterface/Controllers/Common/InitialViewControllerFactory.swift:15 | Dropping trailing whitespace leaves a prefix that is empty or ends with a non-blank character. |
| InitialScreen.Trim | Mixin/UserInterface/Controllers/Common/InitialViewControllerFactory.swift:15 | The trimmed text is no longer than the input and, unless empty, neither begins nor ends with whitespace. |
| InitialScreen.InitialScreenFor | Mixin/UserInterface/Controllers/Common/InitialViewControllerFactory.swift:4-26 | Each screen is chosen iff its condition holds and every earlier one fails. The order is clock skew, username, restore, upgrade, signal loading and then home. Signal loading is chosen iff one of its three flags is false. |
| InitialScreen.HomeOnlyWhenReady | Mixin/UserInterface/Controllers/Common/InitialViewControllerFactory.swift:23-24 | Home is shown iff no earlier condition holds. |
| InitialScreen.ClockSkewFirst | Mixin/UserInterface/Controllers/Common/InitialViewControllerFactory.swift:5-14 | Clock skew wins over every other condition. |
| VideoMessage.AutoDownloadFromRaw | Mixin/Foundation/AutoDownload.swift:3-6 | A raw value decodes iff it is 0, 1 or 2. |
| VideoMessage.AutoDownloadRoundTrip | Mixin/Foundation/AutoDownload.swift:3-6 | Every setting decodes from its raw value. |
| VideoMessage.AutomaticallyLoadsAttachment | Mixin/UserInterface/Controllers/Chat/Model/VideoMessageViewModel.swift:14-25 | A message to upload never auto-loads. Otherwise never gives false, Wi-Fi follows reachability, and Wi-Fi-and-cellular gives true. |
| VideoMessage.AutoLoadMonotone | Mixin/UserInterface/Controllers/Chat/Model/VideoMessageViewModel.swift:16-23 | A more permissive setting never loads less. |
| VideoMessage.SetMediaStatus | Mixin/UserInterface/Controllers/Chat/Model/VideoMessageViewModel.swift:35-48 | The status is stored. Any status except pending clears progress and loading. |
| VideoMessage.BeginAttachmentLoading | Mixin/UserInterface/Controllers/Chat/Model/VideoMessageViewModel.swift:75-89 | Loading begins only from pending or cancelled. It marks the message pending, enqueues an upload or download job, and sets loading. |
| VideoMessage.CancelAttachmentLoading | Mixin/UserInterface/Controllers/Chat/Model/VideoMessageViewModel.swift:91-100 | The matching job is cancelled. The message is marked cancelled only when asked. |
| VideoMessage.CancelUndoesBegin | Mixin/UserInterface/Controllers/Chat/Model/VideoMessageViewModel.swift:75-100 | Cancelling right after a begin cancels the job that was queued, and records the cancelled status. Once that status reaches the view model, loading is cleared and can begin again. |
| VideoMessage.BeginTwiceQueuesTwice | Mixin/UserInterface/Controllers/Chat/Model/VideoMessageViewModel.swift:75-89 | Until the pending status comes back, a second begin queues the same job again. |
| DepositTip.Render | Mixin/UserInterface/Windows/DepositTipWindow.swift:29-50 | A tagged asset disables the button and restarts the timer, without resetting the countdown. An untagged asset enables the button. |
| DepositTip.Tick | Mixin/UserInterface/Windows/DepositTipWindow.swift:52-70 | A tick decrements the countdown. At zero or below it enables the button and stops the timer. |
| DepositTip.Dismiss | Mixin/UserInterface/Windows/DepositTipWindow.swift:22-27 | A dismissal request is ignored until dismissal has been allowed. |
| DepositTip.Ok | Mixin/UserInterface/Windows/DepositTipWindow.swift:72-75 | Ok allows dismissal, and the window is dismissed. |
| DepositTip.Step | Mixin/UserInterface/Windows/DepositTipWindow.swift:22-75 | After one event the sheet may be dismissed exactly when it already could be, or the enabled button was tapped. It is dismissed exactly when it already was, when the enabled button was tapped, or when a dismissal was requested and allowed. Taps and dismissal requests leave the countdown and the button state alone. |
| DepositTip.DismissalNeedsOk | Mixin/UserInterface/Windows/DepositTipWindow.swift:12-75 | Over any run, the window is dismissed only after an enabled ok tap. |
| DepositTip.DismissalWaitsForCountdown | Mixin/UserInterface/Windows/DepositTipWindow.swift:33-63 | From a disabled button, with no render in between, the window can be dismissed only after at least `countDown` ticks. |
| DepositTip.TaggedSheetScenario | Mixin/UserInterface/Windows/DepositTipWindow.swift:29-75 | In a concrete run with a tagged sheet, ok after one tick is ignored, and so is a dismissal request. After two ticks, ok dismisses. |
| ClipSwitcher.LoadClips | Mixin/UserInterface/Controllers/Home/Model/ClipSwitcher.swift:34-37 | Loading leaves the persisted list alone. It yields one clip per persisted entry that decodes, in order: the entry at index i becomes the clip at its rank among the decodable entries, with the decoded app and URL. Every clip comes from some decodable entry, and no loaded clip holds a controller. |
| ClipSwitcher.RevivedUnloaded | Mixin/UserInterface/Controllers/Home/Model/ClipSwitcher.swift:34-37 | No revived clip holds a controller. |
| ClipSwitcher.ClipFor | Mixin/UserInterface/Controllers/Home/Model/ClipSwitcher.swift:48-58 | The clip built for a controller holds that controller. |
| ClipSwitcher.AppendClip | Mixin/UserInterface/Controllers/Home/Model/ClipSwitcher.swift:44-72 | If a clip already holds the controller, nothing changes. Otherwise exactly one clip is appended and the encodable clips are persisted. Afterwards some clip holds the controller. |
| ClipSwitcher.AppendKeepsControllersDistinct | Mixin/UserInterface/Controllers/Home/Model/ClipSwitcher.swift:45-47 | After an append, no two clips hold the same controller. |
| ClipSwitcher.RemoveClip | Mixin/UserInterface/Controllers/Home/Model/ClipSwitcher.swift:74-80 | The clip at the index is removed. The persisted entry goes only when the index is in range there. |
| ClipSwitcher.RemoveKeepsControllersDistinct | Mixin/UserInterface/Controllers/Home/Model/ClipSwitcher.swift:74-80 | Removing keeps controllers distinct. |
| ClipSwitcher.RemoveKeepsMirror | Mixin/UserInterface/Controllers/Home/Model/ClipSwitcher.swift:74-80 | When every clip encodes, the persisted list still mirrors the clips after a removal. |
| ClipSwitcher.ReplaceClips | Mixin/UserInterface/Controllers/Home/Model/ClipSwitcher.swift:82-88 | The clips are set exactly. The persisted list is the encodable clips, in order. |
| ClipSwitcher.DropCachedControllers | Mixin/UserInterface/Controllers/Home/Model/ClipSwitcher.swift:99-103 | A memory warning keeps the clip list and persistence but drops every cached controller. |
| ClipSwitcher.ReloadAfterReplace | Mixin/UserInterface/Controllers/Home/Model/ClipSwitcher.swift:34-88 | With a faithful codec, reloading after a replace gives back every encodable clip, unloaded, in order. |
| ClipSwitcher.ReplaceThenLoad | Mixin/UserInterface/Controllers/Home/Model/ClipSwitcher.swift:34-88 | With a faithful codec, replacing with encodable clips and reloading restores them. |
| HomeApps.Id | Mixin/UserInterface/Controllers/Home/Apps/Model/HomeApp.swift:9-17 | An embedded app's id is its own id. An external app's id is its user's app id, or "" when nil. |
| HomeApps.SameAppIsEquivalence | Mixin/UserInterface/Controllers/Home/Apps/Model/HomeApp.swift:117-123 | Two apps are equal iff their ids are equal. This is an equivalence. |
| HomeApps.EmbeddedMatchesBotWithItsId | Mixin/UserInterface/Controllers/Home/Apps/Model/HomeApp.swift:117-123 | An embedded app equals an external app with the same id. |
| HomeApps.FromId | Mixin/UserInterface/Controllers/Home/Apps/Model/HomeApp.swift:19-28 | An embedded app with the id is preferred, then an external app. Without either, construction fails. |
| HomeApps.FromIdFindsThatId | Mixin/UserInterface/Controllers/Home/Apps/Model/HomeApp.swift:19-28 | In a consistent directory, the app found has the id asked for. |
| HomeApps.FromIdOfEmbedded | Mixin/UserInterface/Controllers/Home/Apps/Model/HomeApp.swift:19-24 | Looking up an embedded app's id gives an embedded app with that id. |
| HomeApps.FirstEmbedded | Mixin/UserInterface/Controllers/Home/Apps/Model/HomeApp.swift:20-21 | The first embedded app with the id is found, or none has it. |
| HomeApps.ExternalCategory | Mixin/UserInterface/Controllers/Home/Apps/Model/HomeApp.swift:81-112 | A nil app counts as OTHER. A listed category gives a label of its own, never "other". Any other category gives "other". |
| HomeApps.ExternalCategoryIcon | Mixin/UserInterface/Controllers/Home/Apps/Model/HomeApp.swift:30-66 | A listed category gives its own icon and any other gives the "other" icon. |
| HomeApps.EmbeddedCategory | Mixin/UserInterface/Controllers/Home/Apps/Model/HomeApp.swift:70-80 | Scan-QR is tools, camera is camera and wallet is wallet. Everything else is other. |
| HomeApps.Category | Mixin/UserInterface/Controllers/Home/Apps/Model/HomeApp.swift:70-112 | A category is a bot category label, the camera's, or "other". A bot is "other" exactly when its declared category is unknown. |
| HomeApps.CategoryIcon | Mixin/UserInterface/Controllers/Home/Apps/Model/HomeApp.swift:30-66 | A built-in app shows its own icon. A bot shows one of the category icons, or the "other" icon exactly when its category is unknown. |
| HomeApps.LabelAndIconAgree | Mixin/UserInterface/Controllers/Home/Apps/Model/HomeApp.swift:30-113 | An external app's category is "other" iff its icon is the "other" icon. A listed category gets the label and the icon from the same table position. |
| HomeApps.CategoryExamples | Mixin/UserInterface/Controllers/Home/Apps/Model/HomeApp.swift:30-113 | An app without details is other. A wallet app is wallet. A games app is games, with the game icon. |
| Common.FilterMembership | Mixin/UserInterface/Controllers/Call/GroupCallMemberDataSource.swift:150-165 | A kept element is in the filtered list iff it was in the input. |
| Common.FilterIsSubsequence | Mixin/UserInterface/Controllers/Call/GroupCallMemberDataSource.swift:150-165 | Filtering keeps relative order. |
| Common.CompactMapMembership | Mixin/UserInterface/Controllers/Home/Model/ClipSwitcher.swift:35-37 | A value is in a `compactMap` result iff some input element maps to it. |
| Common.CompactMapRank | Mixin/UserInterface/Controllers/Home/Model/ClipSwitcher.swift:35-37 | A `compactMap` result holds one value per element that has an image. The image of the element at i sits at its rank among those elements. |
| ClipSwitcher.ReviveCounts | Mixin/UserInterface/Controllers/Home/Model/ClipSwitcher.swift:35-37 | An entry revives as a clip iff it decodes, so both count the same entries in every prefix. |

## Left out

- WebRTC internals: SDP generation, the RTCConfiguration constants (Mixin/Service/Call/WebRTCClient.swift:269-279), media constraints and the factory are opaque. The dispatch queues and threading are not modelled; each operation is one atomic step.
- Pending connection construction is not coalesced: two offers made before a connection exists would each fetch servers. The model states what a single caller observes.
- CallSession.ParseRender: only the lower-case rendering is parsed back, because `uuidString` is always lower-case; the model's parser rejects upper-case hex digits. The parser is the model's own witness that the string determines the uuid; the app has no such parser.
- `offer`'s ICE-restart flag only chooses the media constraints handed to the library's opaque SDP generation, so it is not a parameter of `PeerSession.Offer`.
- The weak WebRTC delegate is assumed present. The delegate's key lookup is a function parameter.
- `add(track:)` is assumed to return a sender.
- Statistics iteration order is an input sequence, and `StreamId(rawValue:)` and `.rawValue` are an abstract partial parser and key.
- The roster's debug flag and its muteness handler (GroupCallMemberDataSource.swift:24, 172-181) are not modelled.
- Swift runtime traps are modelled as preconditions: `UrlExtension.PathSuffix` requires the base path to be no longer than the path (`suffix(_:)` with a negative count traps), and `ClipSwitcher.RemoveClip` requires the index to be in range (subscripting out of range traps). What the app does after such a trap is not modelled.
- `GroupRoster.StartInviting` needs distinct input ids for the invariant. `RepeatedInviteeBreaksMirror` shows what happens otherwise.
- The DAOs, the network (TURN replies), UserDefaults, uploader queues, JSON encoding and localisation are parameters or logged effects.
- `willTextMessageWithContentSendDirectlyToApp` and the media-category list are parameters.
- In `SendMessage.Send`, the conversation record's avatar URL, the error log for a missing WebRTC recipient and the hop onto the job-creation queue are not modelled; the send is one atomic step.
- `Double` is modelled as `real`. Rounding and the Int64 overflow traps are not modelled, except for the truncating conversion in `ExpiredMessageModel`.
- Characters are Unicode scalars, not grapheme clusters: `prefix(n)`, `count` and trimming act on scalars. String comparison is code-point lexicographic.
- DetailInfo.FullnameWidth: models only the clamp. Text measurement and the rest of the layout are left out.
- Layout, frames, thumbnails, snapshots, animation and the minimised clip switcher's own copy of the list are left out.
- `ClipSwitcher.RemoveKeepsMirror` requires every clip to encode. When some clip fails to encode, `removeClip` removes the persisted entry at the clip's index, which may be another clip's entry. The model computes that as written but proves the mirror only in the encodable case.
- For an external home app, the missing-appId assertion is modelled as the id "".
- AutoDownload's localised descriptions are not modelled.
- HomeAppsManager drag and folder handling, OggOpusReader, PhoneNumberValidator, TIPIdentity, PrintLog, RingtonePlayer and the windows other than the deposit tip are not modelled. They are UI-bound or wrap foreign libraries.
