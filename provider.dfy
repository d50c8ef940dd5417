/**
 * The live-state tracker of one client session: the registry of channels,
 * each channel's mutable membership, modes, topic and flags, the classifier
 * that turns a raw name into a user, a channel or a bare actor, and the
 * production of detached snapshots. Locking is not modelled: every operation
 * runs on its own, one after another.
 */
module ActorProvider {
  import opened Wrappers
  import opened Hostmask
  import opened Elements
  import opened Snapshots
  import opened Membership
  import opened Refresh
  import opened Registry

  /** The classifier's answer: a freshly parsed user, a live channel, or a bare name. */
  datatype Actor = UserActor(user: User) | ChannelActor(channel: Channel) | GenericActor(name: string)

  /** The request line a refresh sends for channel `name`. */
  function WhoLine(name: string): string {
    "WHO " + name
  }

  class Channel {
    const name: string
    const client: Client
    /** The registry this channel belongs to. */
    const owner: Provider
    var modes: map<string, ModeSet>
    var nickMap: map<string, User>
    var fullListReceived: bool
    var lastWho: int
    var topic: Option<string>
    var topicSetter: Option<ActorSnapshot>
    var topicTime: int
    var tracked: bool

    /** The membership maps as one value. */
    function State(): Members
      reads this`nickMap, this`modes
    {
      Members(nickMap, modes)
    }

    ghost predicate Valid()
      reads this`nickMap, this`modes
    {
      MembersValid(client.fold, State())
    }

    /**
     * A new channel starts empty, untracked and incomplete, with its refresh
     * clock at `now`, and registers itself in its owner's channel map.
     */
    constructor (channel: string, owner: Provider, now: int)
      modifies owner`trackedChannels
      ensures name == channel && this.owner == owner && client == owner.client
      ensures State() == Members(map[], map[]) && Valid()
      ensures !fullListReceived && !tracked && lastWho == now
      ensures topic == None && topicSetter == None && topicTime == 0
      ensures owner.trackedChannels == old(owner.trackedChannels)[owner.client.fold(channel) := this]
    {
      name := channel;
      client := owner.client;
      this.owner := owner;
      modes := map[];
      nickMap := map[];
      fullListReceived := false;
      lastWho := now;
      topic := None;
      topicSetter := None;
      topicTime := 0;
      tracked := false;
      new;
      owner.trackedChannels := owner.trackedChannels[owner.client.fold(channel) := this];
    }

    /** The server has confirmed the name list; the flag is never cleared. */
    method SetListReceived()
      modifies this`fullListReceived
      ensures fullListReceived
    {
      fullListReceived := true;
    }

    method SetTracked(tracked: bool)
      modifies this`tracked
      ensures this.tracked == tracked
    {
      this.tracked := tracked;
    }

    /** New topic text; its time becomes unknown (-1) and its setter absent. */
    method SetTopic(text: string)
      modifies this`topic, this`topicTime, this`topicSetter
      ensures topic == Some(text) && topicTime == -1 && topicSetter == None
    {
      topic := Some(text);
      topicTime := -1;
      topicSetter := None;
    }

    /** When and by whom the topic was set; the text stays as it is. */
    method SetTopicInfo(time: int, setter: ActorSnapshot)
      modifies this`topicTime, this`topicSetter
      ensures topicTime == time && topicSetter == Some(setter)
      ensures topic == old(topic)
    {
      topicTime := time;
      topicSetter := Some(setter);
    }

    /**
     * Takes a snapshot at clock reading `now`. A tracked channel without a
     * complete name list first sends `WHO <name>` when more than 5000 ms
     * passed since the last request, and then records `now` as that time.
     * The snapshot holds copies of both maps, each member replaced by its
     * user snapshot, the flag and the topic.
     */
    method Snapshot(now: int) returns (s: ChannelSnapshot)
      modifies this`lastWho, client`requested
      ensures lastWho == Step(old(lastWho), Probe(now, tracked, fullListReceived))
      ensures client.requested == old(client.requested) +
                (if WhoDue(tracked, fullListReceived, old(lastWho), now) then [WhoLine(name)] else [])
      ensures s.client == client && s.creationTime == now && s.name == name
      ensures s.modes == modes && s.names == modes.Keys
      ensures s.nickMap.Keys == nickMap.Keys
      ensures forall k | k in nickMap :: s.nickMap[k] == owner.SnapshotUser(nickMap[k], now)
      ensures s.users == s.nickMap.Values
      ensures s.complete == fullListReceived
      ensures s.topic == TopicSnapshot(topicTime, topic, topicSetter)
    {
      if tracked && !fullListReceived {
        if now - lastWho > WhoInterval {
          lastWho := now;
          client.SendRawLineAvoidingDuplication(WhoLine(name));
        }
      }
      var t := TopicSnapshot(topicTime, topic, topicSetter);
      var users := map k | k in nickMap :: owner.SnapshotUser(nickMap[k], now);
      s := ChannelSnapshot(client, now, name, modes, modes.Keys, users, users.Values, fullListReceived, t);
    }

    /** The mode set of `nick`, created empty and stored when missing. */
    method GetModes(nick: string) returns (ms: ModeSet)
      requires Valid()
      modifies this`modes
      ensures Valid()
      ensures State() == Ensure(old(State()), client.fold(nick))
      ensures ms == ModesOf(old(State()), client.fold(nick))
    {
      var k := client.fold(nick);
      if k in modes {
        ms := modes[k];
      } else {
        ms := {};
        modes := modes[k := ms];
      }
    }

    /** A name-list entry: `ms` joins the modes of `nick`, member or not. */
    method TrackNick(nick: string, ms: ModeSet)
      requires Valid()
      modifies this`modes
      ensures Valid()
      ensures State() == AddModes(old(State()), client.fold(nick), ms)
    {
      var current := GetModes(nick);
      modes := modes[client.fold(nick) := current + ms];
    }

    /** `u` becomes a member with a copy of `ms`, or with no modes. */
    method TrackUser(u: User, ms: Option<ModeSet>)
      requires Valid()
      modifies this`nickMap, this`modes
      ensures Valid()
      ensures State() == Join(client.fold, old(State()), u, ms)
    {
      nickMap := nickMap[client.fold(u.nick) := u];
      modes := modes[client.fold(u.nick) := if ms.Some? then ms.value else {}];
    }

    method TrackUserJoin(u: User)
      requires Valid()
      modifies this`nickMap, this`modes
      ensures Valid()
      ensures State() == Join(client.fold, old(State()), u, None)
    {
      TrackUser(u, None);
    }

    method TrackUserModeAdd(nick: string, mode: ChannelUserMode)
      requires Valid()
      modifies this`modes
      ensures Valid()
      ensures State() == AddModes(old(State()), client.fold(nick), {mode})
    {
      var current := GetModes(nick);
      modes := modes[client.fold(nick) := current + {mode}];
    }

    method TrackUserModeRemove(nick: string, mode: ChannelUserMode)
      requires Valid()
      modifies this`modes
      ensures Valid()
      ensures State() == RemoveMode(old(State()), client.fold(nick), mode)
    {
      var current := GetModes(nick);
      modes := modes[client.fold(nick) := current - {mode}];
    }

    /** A member's nick change: both entries move to the new user's nick. */
    method TrackUserNick(oldUser: User, newUser: User)
      requires Valid()
      modifies this`nickMap, this`modes
      ensures Valid()
      ensures State() == Rename(client.fold, old(State()), oldUser, newUser)
    {
      var k := client.fold(oldUser.nick);
      if k in nickMap {
        nickMap := nickMap - {k};
        var carried := if k in modes then Some(modes[k]) else None;
        modes := modes - {k};
        TrackUser(newUser, carried);
      }
    }

    method TrackUserPart(u: User)
      requires Valid()
      modifies this`nickMap, this`modes
      ensures Valid()
      ensures State() == Part(old(State()), client.fold(u.nick))
    {
      modes := modes - {client.fold(u.nick)};
      nickMap := nickMap - {client.fold(u.nick)};
    }
  }

  class Provider {
    const client: Client
    /** Registered channels, keyed by folded name; tracked or merely looked up. */
    var trackedChannels: map<string, Channel>

    /** Each registered channel belongs here, sits under its folded name and is valid. */
    ghost predicate Valid()
      reads this`trackedChannels, trackedChannels.Values`nickMap, trackedChannels.Values`modes
    {
      forall k | k in trackedChannels ::
        && trackedChannels[k].owner == this
        && trackedChannels[k].client == client
        && client.fold(trackedChannels[k].name) == k
        && trackedChannels[k].Valid()
    }

    constructor (client: Client)
      ensures this.client == client && trackedChannels == map[] && Valid()
    {
      this.client := client;
      trackedChannels := map[];
    }

    /** The registered channels' names and memberships, as a value. */
    function View(): View
      reads this`trackedChannels, trackedChannels.Values`nickMap, trackedChannels.Values`modes
    {
      map k | k in trackedChannels :: Entry(trackedChannels[k].name, trackedChannels[k].State())
    }

    /** Names of the registered channels that hold `nick` as a member. */
    function ChannelsOf(nick: string): set<string>
      reads this`trackedChannels, trackedChannels.Values`nickMap, trackedChannels.Values`modes
    {
      Holders(View(), client.fold(nick))
    }

    /** Snapshot of a user: its parts and the channels it is in right now. */
    function SnapshotUser(u: User, now: int): UserSnapshot
      reads this`trackedChannels, trackedChannels.Values`nickMap, trackedChannels.Values`modes
    {
      UserSnapshot(client, now, u.mask, u.nick, u.user, u.host, ChannelsOf(u.nick))
    }

    /**
     * The channel set of a nick names exactly the registered channels that
     * hold the nick as a member, and each of its names finds that channel
     * again by lookup.
     */
    lemma ChannelsOfLookup(nick: string)
      requires Valid()
      ensures forall key | key in trackedChannels && client.fold(nick) in trackedChannels[key].nickMap ::
                trackedChannels[key].name in ChannelsOf(nick)
      ensures forall name | name in ChannelsOf(nick) ::
                && client.fold(name) in trackedChannels
                && trackedChannels[client.fold(name)].name == name
                && client.fold(nick) in trackedChannels[client.fold(name)].nickMap
    {
      forall name | name in ChannelsOf(nick)
        ensures client.fold(name) in trackedChannels
        ensures trackedChannels[client.fold(name)].name == name
        ensures client.fold(nick) in trackedChannels[client.fold(name)].nickMap
      {
        var key :| key in View() && client.fold(nick) in View()[key].members.nicks && View()[key].name == name;
        assert client.fold(trackedChannels[key].name) == key;
      }
      forall key | key in trackedChannels && client.fold(nick) in trackedChannels[key].nickMap
        ensures trackedChannels[key].name in ChannelsOf(nick)
      {
        assert View()[key].members.nicks == trackedChannels[key].nickMap;
      }
    }

    method ChannelTrack(c: Channel)
      requires Valid() && c.Valid() && c.owner == this && c.client == client
      modifies this`trackedChannels, c`tracked
      ensures Valid()
      ensures trackedChannels == old(trackedChannels)[client.fold(c.name) := c]
      ensures c.tracked
    {
      trackedChannels := trackedChannels[client.fold(c.name) := c];
      c.SetTracked(true);
    }

    /** Drops whatever is registered under `c`'s folded name and clears `c`'s flag. */
    method ChannelUntrack(c: Channel)
      requires Valid()
      modifies this`trackedChannels, c`tracked
      ensures Valid()
      ensures trackedChannels == old(trackedChannels) - {client.fold(c.name)}
      ensures !c.tracked
    {
      trackedChannels := trackedChannels - {client.fold(c.name)};
      c.SetTracked(false);
    }

    /**
     * The channel registered under the folded `name`; otherwise, when the
     * server accepts `name` as a channel name, a new channel, which registers
     * itself untracked; otherwise nothing.
     */
    method GetChannel(name: string, now: int) returns (r: Option<Channel>)
      requires Valid()
      modifies this`trackedChannels
      ensures Valid()
      ensures client.fold(name) in old(trackedChannels) ==>
                r == Some(old(trackedChannels)[client.fold(name)]) && trackedChannels == old(trackedChannels)
      ensures client.fold(name) !in old(trackedChannels) && client.isValidChannel(name) ==>
                && r.Some? && fresh(r.value)
                && r.value.name == name && r.value.owner == this
                && r.value.State() == Members(map[], map[])
                && !r.value.tracked && !r.value.fullListReceived && r.value.lastWho == now
                && trackedChannels == old(trackedChannels)[client.fold(name) := r.value]
      ensures client.fold(name) !in old(trackedChannels) && !client.isValidChannel(name) ==>
                r == None && trackedChannels == old(trackedChannels)
    {
      var k := client.fold(name);
      if k in trackedChannels {
        r := Some(trackedChannels[k]);
      } else if client.isValidChannel(name) {
        var c := new Channel(name, this, now);
        r := Some(c);
      } else {
        r := None;
      }
    }

    /**
     * Classifies a raw name: a whole-string `nick!user@host` match is a user
     * whose mask is the name; failing that, a channel as `GetChannel` finds
     * or makes it; failing that, a bare actor. Never fails.
     */
    method GetActor(name: string, now: int) returns (a: Actor)
      requires Valid()
      modifies this`trackedChannels
      ensures Valid()
      ensures Parse(name).Some? ==>
                var p := Parse(name).value;
                a == UserActor(User(name, p.nick, p.user, p.host)) && a.user.WellFormed()
                && trackedChannels == old(trackedChannels) && View() == old(View())
      ensures Parse(name).None? && client.fold(name) in old(trackedChannels) ==>
                a == ChannelActor(old(trackedChannels)[client.fold(name)])
                && trackedChannels == old(trackedChannels)
      ensures Parse(name).None? && client.fold(name) !in old(trackedChannels) && client.isValidChannel(name) ==>
                && a.ChannelActor? && fresh(a.channel)
                && a.channel.name == name && a.channel.owner == this
                && a.channel.State() == Members(map[], map[])
                && !a.channel.tracked && !a.channel.fullListReceived && a.channel.lastWho == now
                && trackedChannels == old(trackedChannels)[client.fold(name) := a.channel]
      ensures Parse(name).None? && client.fold(name) !in old(trackedChannels) && !client.isValidChannel(name) ==>
                a == GenericActor(name) && trackedChannels == old(trackedChannels)
    {
      var parsed := Parse(name);
      if parsed.Some? {
        var p := parsed.value;
        a := UserActor(User(name, p.nick, p.user, p.host));
        return;
      }
      var channel := GetChannel(name, now);
      if channel.Some? {
        a := ChannelActor(channel.value);
      } else {
        a := GenericActor(name);
      }
    }

    /**
     * A nick change seen on the wire. The new mask is `newNick` followed by
     * the old mask from its first `!`; classifying it must give a user, which
     * is the case exactly when `newNick` is a non-empty string free of `!`
     * and `@`. Then every registered channel renames the member. Otherwise the
     * source's cast fails (`None` here) after the classifier may already have
     * registered a channel under the new mask, and no channel is renamed.
     */
    method TrackUserNick(u: User, newNick: string, now: int) returns (r: Option<User>)
      requires Valid() && u.WellFormed()
      modifies this`trackedChannels, trackedChannels.Values`nickMap, trackedChannels.Values`modes
      ensures Valid()
      ensures r.Some? <==> IsPart(newNick)
      ensures r.Some? ==>
                && r.value == User(MaskOf(newNick, u.user, u.host), newNick, u.user, u.host)
                && r.value.WellFormed()
                && trackedChannels == old(trackedChannels)
                && View() == RenameAll(client.fold, old(View()), u, r.value)
                && ChannelsOf(newNick) == old(ChannelsOf(u.nick)) + old(ChannelsOf(newNick))
                && (client.fold(u.nick) != client.fold(newNick) ==> ChannelsOf(u.nick) == {})
      ensures r.None? ==>
                && (forall c | c in old(trackedChannels.Values) :: c.State() == old(c.State()))
                && var mask := MaskOf(newNick, u.user, u.host);
                   var k := client.fold(mask);
                   if k !in old(trackedChannels) && client.isValidChannel(mask) then
                     k in trackedChannels && fresh(trackedChannels[k])
                     && trackedChannels == old(trackedChannels)[k := trackedChannels[k]]
                   else trackedChannels == old(trackedChannels)
    {
      var a := NewNickActor(u, newNick, now);
      if !a.UserActor? {
        r := None;
        return;
      }
      r := Some(a.user);
      RenameMember(u, a.user);
    }

    /**
     * Classifies `newNick` followed by `u`'s mask from its first `!`: a user
     * with the new nick and the old user and host exactly when the new nick
     * is a valid part, and then nothing changes; otherwise whatever the
     * classifier makes of the rebuilt mask, which may register a channel.
     */
    method NewNickActor(u: User, newNick: string, now: int) returns (a: Actor)
      requires Valid() && u.WellFormed()
      modifies this`trackedChannels
      ensures Valid()
      ensures a.UserActor? <==> IsPart(newNick)
      ensures a.UserActor? ==>
                && a.user == User(MaskOf(newNick, u.user, u.host), newNick, u.user, u.host)
                && a.user.WellFormed()
                && trackedChannels == old(trackedChannels) && View() == old(View())
      ensures !a.UserActor? ==>
                var mask := MaskOf(newNick, u.user, u.host);
                var k := client.fold(mask);
                if k !in old(trackedChannels) && client.isValidChannel(mask) then
                  k in trackedChannels && fresh(trackedChannels[k])
                  && trackedChannels == old(trackedChannels)[k := trackedChannels[k]]
                else trackedChannels == old(trackedChannels)
    {
      WithNickParses(u.mask, Parts(u.nick, u.user, u.host), newNick);
      var mask := WithNick(u.mask, newNick);
      a := GetActor(mask, now);
    }

    /** Every registered channel renames member `u` to `newUser`. */
    method RenameEverywhere(u: User, newUser: User)
      requires Valid()
      modifies trackedChannels.Values`nickMap, trackedChannels.Values`modes
      ensures Valid()
      ensures forall c | c in trackedChannels.Values ::
                c.State() == Rename(client.fold, old(c.State()), u, newUser)
    {
      var todo := trackedChannels.Values;
      while todo != {}
        invariant todo <= trackedChannels.Values
        invariant forall c | c in trackedChannels.Values :: c.Valid()
        invariant forall c | c in trackedChannels.Values && c !in todo ::
                    c.State() == Rename(client.fold, old(c.State()), u, newUser)
        invariant forall c | c in todo :: c.State() == old(c.State())
        decreases todo
      {
        var c :| c in todo;
        c.TrackUserNick(u, newUser);
        todo := todo - {c};
      }
    }

    /** `RenameEverywhere`, with its effect on the registry and on channel sets. */
    method RenameMember(u: User, newUser: User)
      requires Valid()
      modifies trackedChannels.Values`nickMap, trackedChannels.Values`modes
      ensures Valid()
      ensures forall c | c in trackedChannels.Values ::
                c.State() == Rename(client.fold, old(c.State()), u, newUser)
      ensures View() == RenameAll(client.fold, old(View()), u, newUser)
      ensures ChannelsOf(newUser.nick) == old(ChannelsOf(u.nick)) + old(ChannelsOf(newUser.nick))
      ensures client.fold(u.nick) != client.fold(newUser.nick) ==> ChannelsOf(u.nick) == {}
    {
      ghost var before := View();
      RenameEverywhere(u, newUser);
      forall key | key in trackedChannels
        ensures trackedChannels[key].State() == Rename(client.fold, before[key].members, u, newUser)
      {
        assert trackedChannels[key] in trackedChannels.Values;
      }
      RenamedView(before, u, newUser);
    }

    /**
     * When every registered channel has renamed `u` to `newUser` since the
     * registry looked like `before`, the registry is `RenameAll` of `before`,
     * with its effect on channel sets.
     */
    lemma RenamedView(before: View, u: User, newUser: User)
      requires before.Keys == trackedChannels.Keys
      requires forall key | key in trackedChannels ::
                 && before[key].name == trackedChannels[key].name
                 && trackedChannels[key].State() == Rename(client.fold, before[key].members, u, newUser)
      ensures View() == RenameAll(client.fold, before, u, newUser)
      ensures Holders(View(), client.fold(newUser.nick)) ==
              Holders(before, client.fold(u.nick)) + Holders(before, client.fold(newUser.nick))
      ensures client.fold(u.nick) != client.fold(newUser.nick) ==> Holders(View(), client.fold(u.nick)) == {}
    {
      assert View() == RenameAll(client.fold, before, u, newUser);
      HoldersAfterRename(client.fold, before, u, newUser);
    }

    /** A quit seen on the wire: every registered channel parts with the user. */
    method TrackUserQuit(u: User)
      requires Valid()
      modifies trackedChannels.Values`nickMap, trackedChannels.Values`modes
      ensures Valid()
      ensures forall c | c in trackedChannels.Values ::
                c.State() == Part(old(c.State()), client.fold(u.nick))
      ensures View() == PartAll(old(View()), client.fold(u.nick))
      ensures ChannelsOf(u.nick) == {}
      ensures forall nick | client.fold(nick) != client.fold(u.nick) ::
                ChannelsOf(nick) == old(ChannelsOf(nick))
    {
      ghost var before := View();
      var k := client.fold(u.nick);
      PartEverywhere(u);
      forall key | key in trackedChannels
        ensures trackedChannels[key].State() == Part(before[key].members, k)
      {
        assert trackedChannels[key] in trackedChannels.Values;
      }
      PartedView(before, k);
    }

    /** Every registered channel parts with `u`. */
    method PartEverywhere(u: User)
      requires Valid()
      modifies trackedChannels.Values`nickMap, trackedChannels.Values`modes
      ensures Valid()
      ensures forall c | c in trackedChannels.Values ::
                c.State() == Part(old(c.State()), client.fold(u.nick))
    {
      var k := client.fold(u.nick);
      var todo := trackedChannels.Values;
      while todo != {}
        invariant todo <= trackedChannels.Values
        invariant forall c | c in trackedChannels.Values :: c.Valid()
        invariant forall c | c in trackedChannels.Values && c !in todo ::
                    c.State() == Part(old(c.State()), k)
        invariant forall c | c in todo :: c.State() == old(c.State())
        decreases todo
      {
        var c :| c in todo;
        c.TrackUserPart(u);
        todo := todo - {c};
      }
    }

    /**
     * When every registered channel has parted with folded nick `k` since the
     * registry looked like `before`, the registry is `PartAll` of `before`:
     * the nick is in no channel and every other nick keeps its channels.
     */
    lemma PartedView(before: View, k: string)
      requires before.Keys == trackedChannels.Keys
      requires forall key | key in trackedChannels ::
                 && before[key].name == trackedChannels[key].name
                 && trackedChannels[key].State() == Part(before[key].members, k)
      ensures View() == PartAll(before, k)
      ensures Holders(View(), k) == {}
      ensures forall j | j != k :: Holders(View(), j) == Holders(before, j)
    {
      assert View() == PartAll(before, k);
      forall j | j != k
        ensures Holders(View(), j) == Holders(before, j)
      {
        HoldersAfterPart(before, k, j);
      }
      HoldersAfterPart(before, k, k);
    }
  }

  /**
   * A channel snapshot is detached: after a snapshot, a mode given to `nick`
   * is in the live channel while the snapshot keeps the mode map it copied.
   */
  method SnapshotIgnoresModeAdd(c: Channel, nick: string, mode: ChannelUserMode, now: int)
    returns (s: ChannelSnapshot)
    requires c.Valid()
    modifies c`lastWho, c.client`requested, c`modes
    ensures s.modes == old(c.modes) && s.names == old(c.modes).Keys
    ensures c.State() == AddModes(old(c.State()), c.client.fold(nick), {mode})
    ensures mode in c.modes[c.client.fold(nick)]
  {
    s := c.Snapshot(now);
    c.TrackUserModeAdd(nick, mode);
  }

  /** As `SnapshotIgnoresModeAdd`, for a mode taken from `nick` after the snapshot. */
  method SnapshotIgnoresModeRemove(c: Channel, nick: string, mode: ChannelUserMode, now: int)
    returns (s: ChannelSnapshot)
    requires c.Valid()
    modifies c`lastWho, c.client`requested, c`modes
    ensures s.modes == old(c.modes) && s.names == old(c.modes).Keys
    ensures c.State() == RemoveMode(old(c.State()), c.client.fold(nick), mode)
    ensures mode !in c.modes[c.client.fold(nick)]
  {
    s := c.Snapshot(now);
    c.TrackUserModeRemove(nick, mode);
  }

  /** As `SnapshotIgnoresModeAdd`, for a name-list entry for `nick` after the snapshot. */
  method SnapshotIgnoresTrackNick(c: Channel, nick: string, ms: ModeSet, now: int)
    returns (s: ChannelSnapshot)
    requires c.Valid()
    modifies c`lastWho, c.client`requested, c`modes
    ensures s.modes == old(c.modes) && s.names == old(c.modes).Keys
    ensures c.State() == AddModes(old(c.State()), c.client.fold(nick), ms)
    ensures ms <= c.modes[c.client.fold(nick)]
  {
    s := c.Snapshot(now);
    c.TrackNick(nick, ms);
  }
}
