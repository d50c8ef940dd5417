# Actor tracking and snapshots of an IRC client session

This project models the live-state tracker of one session of KittehIRCClientLib, an IRC client library. The tracker classifies raw names as users, channels or bare actors. It keeps one mutable record per channel: its members, their channel-user modes, the topic and the membership flags. It applies protocol events (join, part, nick change, quit, mode change) to those records. It also produces detached snapshots of a channel and of its users. A snapshot of a channel that is tracked but does not have a complete name list is an occasion to send `WHO <channel>` again (section 3.6.1 of RFC 2812), at most once every 5000 ms.

The modules are:

- `Hostmask` — the `nick!user@host` pattern as a parser, with its round trip and the nick-change rebuild of a mask.
- `Elements` — the client session (case mapping, channel-name rule, identity hash, outbound lines), channel-user modes, users and Java `int` wrap-around.
- `Membership` — a channel's two maps as a value. Every channel mutator is a function on that value.
- `Refresh` — the `WHO` rate limit as a step function, with lemmas over runs of snapshots.
- `Registry` — the map of registered channels as a value, with a user's channel set and the effect of a rename or a quit on it.
- `Snapshots` — snapshot values, with their case-insensitive equality and hash codes.
- `ActorProvider` — the source's objects: `Channel` and `Provider`, classes whose methods update their fields in place, each proved against the functions above.
- `SharedModeSets` — the snapshot's copy of the mode map as the source writes it (see Findings).

The session's case mapping and its valid-channel rule come from the server, so they are parameters of the `Client` (`fold`, `isValidChannel`). A case-insensitive map is a Dafny `map` keyed by the folded key. The clock is a `now` argument. The outbound connection is the `Client.requested` sequence of lines.

The model follows these facts of the code:

- A channel looked up for the first time under a valid name registers itself in the channel map as soon as it is built (ActorProvider.java:121). Its `tracked` flag stays false. Registration does not wait for `channelTrack`.
- The refresh gate is strict: more than 5000 ms must have passed, not at least 5000 ms (ActorProvider.java:154).
- Every member has a mode entry. The converse does not hold: a name-list entry or a mode change for a nick that is not a member creates a mode entry with no member (`Membership.ModeEntryWithoutMember`).
- The completeness flag is only ever set, never cleared.

## Model

| member | source | states |
|---|---|---|
| Hostmask.IndexOf | src/main/java/org/kitteh/irc/client/library/ActorProvider.java:477 | the index is the first occurrence of the character, or the length when there is none |
| Hostmask.Parse | src/main/java/org/kitteh/irc/client/library/ActorProvider.java:434 | a successful match has three non-empty groups free of `!` and `@`, and the string is exactly `nick!user@host` of them |
| Hostmask.ParseMaskOf | src/main/java/org/kitteh/irc/client/library/ActorProvider.java:434 | every `nick!user@host` of three well-formed groups matches, with those groups |
| Hostmask.ParseIff | src/main/java/org/kitteh/irc/client/library/ActorProvider.java:455-457 | a string matches with given groups if and only if the groups are well-formed and the string is built from them |
| Hostmask.ParseRejectsNick | src/main/java/org/kitteh/irc/client/library/ActorProvider.java:434 | a mask whose nick group is empty or holds `!` or `@` does not match |
| Hostmask.ParseNick | src/main/java/org/kitteh/irc/client/library/ActorProvider.java:477 | with a well-formed user and host, the mask matches exactly when the nick is well-formed, and then with those groups |
| Hostmask.WithNick | src/main/java/org/kitteh/irc/client/library/ActorProvider.java:477 | defined as the new nick followed by the mask from its first `!`; its properties are `WithNickKeepsRest` and `WithNickParses` |
| Hostmask.WithNickKeepsRest | src/main/java/org/kitteh/irc/client/library/ActorProvider.java:477 | replacing everything before the first `!` of a mask keeps its user and host groups |
| Hostmask.WithNickParses | src/main/java/org/kitteh/irc/client/library/ActorProvider.java:476-477 | the rebuilt mask of a user is a user exactly when the new nick is well-formed, and then has the new nick and the old user and host |
| Elements.Wrap32 | src/main/java/org/kitteh/irc/client/library/ActorProvider.java:310 | the result is a Java `int` congruent to the mathematical value modulo 2^32 |
| Elements.Client.SendRawLineAvoidingDuplication | src/main/java/org/kitteh/irc/client/library/ActorProvider.java:156 | the requested line is appended to the session's outbound lines |
| Snapshots.ChannelEquals | src/main/java/org/kitteh/irc/client/library/ActorProvider.java:258-262 | defined as: same session and names equal after folding; its properties are in `ChannelEqualsContract` |
| Snapshots.UserEquals | src/main/java/org/kitteh/irc/client/library/ActorProvider.java:386-389 | defined as: same session and full masks equal after folding; its properties are in `UserEqualsContract` |
| Snapshots.StringHashCode | src/main/java/org/kitteh/irc/client/library/ActorProvider.java:310 | Java's `String.hashCode`, computed with wrap-around at every step, equals the exact polynomial s[0]*31^(n-1) + ... + s[n-1] wrapped once |
| Snapshots.ChannelHashCode | src/main/java/org/kitteh/irc/client/library/ActorProvider.java:307-311 | the channel snapshot's hash code equals twice the exact polynomial hash of the folded name plus the session's identity hash, wrapped once |
| Snapshots.UserHashCode | src/main/java/org/kitteh/irc/client/library/ActorProvider.java:421-424 | the user snapshot's hash code equals twice the exact polynomial hash of the folded mask plus the session's identity hash, wrapped once |
| Snapshots.ChannelEqualsContract | src/main/java/org/kitteh/irc/client/library/ActorProvider.java:258-262 | channel snapshot equality (same session, names equal after folding) is reflexive, symmetric and transitive, and equal snapshots have equal hash codes (ActorProvider.java:307-311) |
| Snapshots.UserEqualsContract | src/main/java/org/kitteh/irc/client/library/ActorProvider.java:386-389 | user snapshot equality (same session, masks equal after folding) is an equivalence, and equal snapshots have equal hash codes (ActorProvider.java:421-424) |
| Membership.MutatorsKeepValid | src/main/java/org/kitteh/irc/client/library/ActorProvider.java:164-204 | every channel mutator keeps "every member has a mode entry and sits under its folded nick" |
| Membership.ModeEntryWithoutMember | src/main/java/org/kitteh/irc/client/library/ActorProvider.java:196-204 | a mode change or name-list entry for a non-member creates a mode entry without a member, so mode keys need not be member keys |
| Membership.RenameCarriesModes | src/main/java/org/kitteh/irc/client/library/ActorProvider.java:185-189 | a member's rename files the new user under the new nick with the very mode set the old nick had, drops the old nick and touches no other nick; a non-member's rename changes nothing |
| Membership.RenameRoundTrip | src/main/java/org/kitteh/irc/client/library/ActorProvider.java:185-189 | renaming a member to an unused nick and back restores the channel exactly |
| Membership.PartUndoesJoin | src/main/java/org/kitteh/irc/client/library/ActorProvider.java:168-175 | a part right after a newcomer's join restores the channel (ActorProvider.java:191-194) |
| Membership.ModeAddRemoveInverse | src/main/java/org/kitteh/irc/client/library/ActorProvider.java:177-183 | removing a mode just added to an existing mode entry restores the channel |
| Refresh.LastWhoMonotone | src/main/java/org/kitteh/irc/client/library/ActorProvider.java:154-155 | the last-request time never decreases along a run of snapshots |
| Refresh.EmitSetsLastWho | src/main/java/org/kitteh/irc/client/library/ActorProvider.java:154-156 | a snapshot that sends a request sets the last-request time to its clock reading |
| Refresh.EmitsSpaced | src/main/java/org/kitteh/irc/client/library/ActorProvider.java:152-156 | any two requests of a run are more than 5000 ms apart |
| Refresh.CompleteIsSilent | src/main/java/org/kitteh/irc/client/library/ActorProvider.java:152 | a snapshot of a channel with a complete name list sends no request |
| Refresh.AtMostOneWhoPerWindow | src/main/java/org/kitteh/irc/client/library/ActorProvider.java:150-158 | snapshots whose clock readings lie within 5000 ms of one another send at most one request in all |
| Refresh.CompleteSilencesRest | src/main/java/org/kitteh/irc/client/library/ActorProvider.java:129-131 | once the name list is complete, the rest of the run sends no request (ActorProvider.java:152) |
| Registry.HoldersAfterRename | src/main/java/org/kitteh/irc/client/library/ActorProvider.java:478 | after a rename across the registry the new nick is in exactly the channels that held the old or the new nick, and an old nick that folds differently is in none |
| Registry.HoldersAfterPart | src/main/java/org/kitteh/irc/client/library/ActorProvider.java:483 | after a quit the nick is in no channel and every other nick keeps its channels |
| ActorProvider.Channel.constructor | src/main/java/org/kitteh/irc/client/library/ActorProvider.java:117-122 | a new channel is empty, untracked and incomplete, its refresh clock is the creation time (ActorProvider.java:110), and it registers itself under its folded name |
| ActorProvider.Channel.SetListReceived | src/main/java/org/kitteh/irc/client/library/ActorProvider.java:129-131 | the completeness flag becomes true |
| ActorProvider.Channel.SetTracked | src/main/java/org/kitteh/irc/client/library/ActorProvider.java:133-135 | the tracked flag takes the given value |
| ActorProvider.Channel.SetTopic | src/main/java/org/kitteh/irc/client/library/ActorProvider.java:137-141 | the topic text is set, its time becomes -1 and its setter absent |
| ActorProvider.Channel.SetTopicInfo | src/main/java/org/kitteh/irc/client/library/ActorProvider.java:143-146 | the topic time and setter are set and the text is unchanged |
| ActorProvider.Channel.Snapshot | src/main/java/org/kitteh/irc/client/library/ActorProvider.java:150-161 | `WHO <name>` is sent exactly when the gate is open, and then the last-request time becomes `now`; the snapshot holds the mode map, its keys as names, each member's user snapshot, those snapshots as users, the completeness flag and the topic (ActorProvider.java:244-256) |
| ActorProvider.Channel.GetModes | src/main/java/org/kitteh/irc/client/library/ActorProvider.java:196-204 | the nick's mode set is returned, and an empty one is stored first when it is missing |
| ActorProvider.Channel.TrackNick | src/main/java/org/kitteh/irc/client/library/ActorProvider.java:164-166 | the modes join the nick's mode entry, member or not |
| ActorProvider.Channel.TrackUser | src/main/java/org/kitteh/irc/client/library/ActorProvider.java:168-171 | the user is filed under its folded nick with a copy of the given modes, or with none |
| ActorProvider.Channel.TrackUserJoin | src/main/java/org/kitteh/irc/client/library/ActorProvider.java:173-175 | a joining user is filed with no modes |
| ActorProvider.Channel.TrackUserModeAdd | src/main/java/org/kitteh/irc/client/library/ActorProvider.java:177-179 | the mode is added to the nick's mode entry, created when missing |
| ActorProvider.Channel.TrackUserModeRemove | src/main/java/org/kitteh/irc/client/library/ActorProvider.java:181-183 | the mode is removed from the nick's mode entry, created when missing |
| ActorProvider.Channel.TrackUserNick | src/main/java/org/kitteh/irc/client/library/ActorProvider.java:185-189 | the channel's maps become the rename of the old ones, and the membership invariant is kept |
| ActorProvider.Channel.TrackUserPart | src/main/java/org/kitteh/irc/client/library/ActorProvider.java:191-194 | both entries of the nick are dropped and nothing else changes |
| ActorProvider.Provider.constructor | src/main/java/org/kitteh/irc/client/library/ActorProvider.java:438-441 | a new registry is empty |
| ActorProvider.Provider.ChannelsOf | src/main/java/org/kitteh/irc/client/library/ActorProvider.java:383 | defined as the names of the registered channels whose member map holds the folded nick; characterised by `ChannelsOfLookup`, `RenameMember` and `TrackUserQuit` |
| ActorProvider.Provider.SnapshotUser | src/main/java/org/kitteh/irc/client/library/ActorProvider.java:367-369 | defined as the user's mask, nick, user and host with the channel set `ChannelsOf` gives at that moment, as the user snapshot constructor computes it (ActorProvider.java:378-384) |
| ActorProvider.Provider.ChannelsOfLookup | src/main/java/org/kitteh/irc/client/library/ActorProvider.java:383 | a user snapshot's channel set names exactly the registered channels holding the nick, and each name finds its channel again by lookup |
| ActorProvider.Provider.ChannelTrack | src/main/java/org/kitteh/irc/client/library/ActorProvider.java:443-446 | the channel is filed under its folded name and marked tracked |
| ActorProvider.Provider.ChannelUntrack | src/main/java/org/kitteh/irc/client/library/ActorProvider.java:448-451 | the folded name is removed from the registry and the channel marked untracked |
| ActorProvider.Provider.GetChannel | src/main/java/org/kitteh/irc/client/library/ActorProvider.java:466-473 | a registered channel is returned as it is; otherwise a valid name yields a fresh, empty, untracked channel now registered under it; otherwise nothing, and the registry is unchanged |
| ActorProvider.Provider.GetActor | src/main/java/org/kitteh/irc/client/library/ActorProvider.java:453-464 | a whole-string hostmask yields a user with its groups and the name as mask, and changes nothing; otherwise the channel `GetChannel` gives; otherwise a bare actor named by the name; it never fails |
| ActorProvider.Provider.NewNickActor | src/main/java/org/kitteh/irc/client/library/ActorProvider.java:477 | classifying the rebuilt mask gives a user exactly when the new nick is well-formed, with the new nick and the old user and host; otherwise at most a channel under the rebuilt mask is registered |
| ActorProvider.Provider.TrackUserNick | src/main/java/org/kitteh/irc/client/library/ActorProvider.java:475-480 | when the new nick is well-formed the new user is returned and the registry becomes every channel's rename, with the channel sets that follow; otherwise no channel is renamed (the source's cast fails) |
| ActorProvider.Provider.RenameEverywhere | src/main/java/org/kitteh/irc/client/library/ActorProvider.java:478 | every registered channel's maps become the rename of the old ones |
| ActorProvider.Provider.RenameMember | src/main/java/org/kitteh/irc/client/library/ActorProvider.java:478 | the registry becomes the rename of the old registry, the new nick's channel set is the union of the two nicks' sets and a differently folding old nick has none |
| ActorProvider.Provider.RenamedView | src/main/java/org/kitteh/irc/client/library/ActorProvider.java:478 | channels each renamed since an earlier registry make the registry that registry's rename, with its channel sets |
| ActorProvider.Provider.TrackUserQuit | src/main/java/org/kitteh/irc/client/library/ActorProvider.java:482-484 | every registered channel drops the user, the user is in no channel afterwards and every other nick keeps its channels |
| ActorProvider.Provider.PartEverywhere | src/main/java/org/kitteh/irc/client/library/ActorProvider.java:483 | every registered channel's maps lose both entries of the nick |
| ActorProvider.Provider.PartedView | src/main/java/org/kitteh/irc/client/library/ActorProvider.java:483 | channels each parted since an earlier registry make the registry that registry's part, with its channel sets |
| ActorProvider.SnapshotIgnoresModeAdd | src/main/java/org/kitteh/irc/client/library/ActorProvider.java:248-250 | for any valid channel, nick, mode and clock: after a snapshot and then a mode add, the snapshot keeps the mode map as it was when taken while the live channel holds the mode (ActorProvider.java:177-179) |
| ActorProvider.SnapshotIgnoresModeRemove | src/main/java/org/kitteh/irc/client/library/ActorProvider.java:248-250 | the same for a mode removed after the snapshot: the snapshot keeps the old map, the live entry lacks the mode (ActorProvider.java:181-183) |
| ActorProvider.SnapshotIgnoresTrackNick | src/main/java/org/kitteh/irc/client/library/ActorProvider.java:248-250 | the same for a name-list entry after the snapshot: the snapshot keeps the old map, the live entry holds the new modes (ActorProvider.java:164-166) |
| SharedModeSets.LiveModes.TrackUserJoin | src/main/java/org/kitteh/irc/client/library/ActorProvider.java:170 | a join files a new, empty mode set object |
| SharedModeSets.LiveModes.GetModes | src/main/java/org/kitteh/irc/client/library/ActorProvider.java:196-204 | the existing mode set object is returned, or a new empty one is stored and returned |
| SharedModeSets.LiveModes.TrackUserModeAdd | src/main/java/org/kitteh/irc/client/library/ActorProvider.java:177-179 | the mode is added in place: for an existing nick the map itself is unchanged and its object now holds the mode; for a new nick the map gains one fresh object holding just the mode (ActorProvider.java:197-203); every other set object keeps its contents |
| SharedModeSets.SnapshotSeesLaterModeChange | src/main/java/org/kitteh/irc/client/library/ActorProvider.java:248-249 | a shallow copy of the mode map reports no modes when taken and the later mode afterwards |

## Left out

- Locking and `volatile`: operations run one at a time. Both the `synchronized` block around the refresh gate and the copying done after the lock is released are left out.
- The system clock: every clock reading is a `now` argument, so snapshot creation times are whatever the caller passes.
- Duplicate suppression in the outbound queue: `SendRawLineAvoidingDuplication` records every line it is given, because that collaborator is not part of this model.
- Case-insensitive maps keep original-case keys and an iteration order. Here keys are the folded strings. A snapshot's ordered `names` and `users` lists are sets, because no order is promised.
- `IRCChannel.getUser` is used only through the channel set of a user snapshot (`Provider.ChannelsOf`). The getters of the snapshot classes are plain field reads of the snapshot values.
- `IRCActor.snapshot` and the generic actor snapshot exist only as the `NamedSnapshot` value. A topic setter is held as an actor snapshot value.
- `Sanity.nullCheck` is left out: there is no null in the model.
- The regular-expression engine is replaced by a direct parser of the pattern `([^!@]+)!([^!@]+)@([^!@]+)`.
- `IRCChannelUserMode` is a class with only its mode and prefix. Its client reference is dropped, and sets of modes compare by reference, as in the source.
- AuthType.java is not part of this model: it is a two-constant enum.
- Snapshots.StringHashCode: treats every character as one UTF-16 unit, which is the source's `String.hashCode` only for text inside the Basic Multilingual Plane.
- Snapshots.ChannelEqualsContract: the session's own hash code is an `identityHash` constant of the client, not the JVM identity hash.
- ActorProvider.Provider.TrackUserNick: where the source throws a `ClassCastException`, the model returns `None`, after the same side effect (a channel possibly registered under the rebuilt mask). The exception's propagation to the caller is not modelled.
- Hostmask.IndexOf, Hostmask.WithNick: `IndexOf` gives the length of the string when the character is absent, where Java's `indexOf` gives -1, so `WithNick` of a mask without `!` is just the new nick, where the source's `substring(-1)` would throw. Users come only from a successful match, which always contains `!` (`User.WellFormed`), so the two agree on every mask the tracker rebuilds.

## Findings

| source | as written | input that shows it | evidently intended | confidence | as-written member | corrected member |
|---|---|---|---|---|---|---|
| src/main/java/org/kitteh/irc/client/library/ActorProvider.java:248-249 | the channel snapshot copies the mode map with `putAll`, so the copy holds the live mode set objects, and `trackUserModeAdd`, `trackUserModeRemove` and `trackNick` change those objects in place (ActorProvider.java:164-183) | join `alice` to a channel, take a snapshot: its modes for `alice` are empty; then add a mode for `alice`: the same snapshot now reports that mode | a snapshot is detached, so later mutations of the channel do not change it; each mode set should be copied (the corrected model copies values, and `SnapshotIgnoresModeRemove` and `SnapshotIgnoresTrackNick` cover the other two mutators) | not executed | SharedModeSets.SnapshotSeesLaterModeChange | ActorProvider.SnapshotIgnoresModeAdd |
