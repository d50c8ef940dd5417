/**
 * Detached, immutable views of tracked state. A snapshot holds values only,
 * never the live maps, so later changes to a channel cannot reach it.
 * Channel and user snapshots compare by session and by case-folded name
 * (section 1.3 of RFC 2812: channel names are case insensitive).
 */
module Snapshots {
  import opened Wrappers
  import opened Elements

  /** Snapshot of a user; `channels` is computed when the snapshot is taken. */
  datatype UserSnapshot = UserSnapshot(
    client: Client, creationTime: int,
    mask: string, nick: string, user: string, host: string,
    channels: set<string>)

  /** Topic text, the time it was set (-1 when unknown) and who set it. */
  datatype TopicSnapshot = TopicSnapshot(time: int, topic: Option<string>, setter: Option<ActorSnapshot>)

  /**
   * Snapshot of a channel: copies of the mode map and of the member map
   * (members replaced by their user snapshots), the list of names taken from
   * the mode map's keys, the users taken from the member map's values, the
   * completeness flag and the topic.
   */
  datatype ChannelSnapshot = ChannelSnapshot(
    client: Client, creationTime: int, name: string,
    modes: map<string, set<ChannelUserMode>>,
    names: set<string>,
    nickMap: map<string, UserSnapshot>,
    users: set<UserSnapshot>,
    complete: bool,
    topic: TopicSnapshot)

  /** What a consumer can hold as an actor: a bare named actor or one of the above. */
  datatype ActorSnapshot =
    | NamedSnapshot(client: Client, creationTime: int, name: string)
    | UserActorSnapshot(userSnapshot: UserSnapshot)
    | ChannelActorSnapshot(channelSnapshot: ChannelSnapshot)

  /** Channel snapshot equality: same session, names equal under its case mapping. */
  predicate ChannelEquals(a: ChannelSnapshot, b: ChannelSnapshot) {
    b.client == a.client && a.client.fold(b.name) == a.client.fold(a.name)
  }

  /** User snapshot equality: same session, full masks equal under its case mapping. */
  predicate UserEquals(a: UserSnapshot, b: UserSnapshot) {
    b.client == a.client && a.client.fold(b.mask) == a.client.fold(a.mask)
  }

  /** The polynomial s[0] * 31^(n-1) + ... + s[n-1] over the characters, without wrap-around. */
  function PolynomialHash(s: string): int {
    if |s| == 0 then 0 else 31 * PolynomialHash(s[..|s| - 1]) + s[|s| - 1] as int
  }

  /**
   * The hash code of a Java string: h = 31 * h + c over its characters in
   * `int` arithmetic. Wrapping at every step gives the polynomial wrapped once.
   */
  function StringHashCode(s: string): (r: int32)
    ensures r == Wrap32(PolynomialHash(s))
  {
    if |s| == 0 then 0
    else
      var h := StringHashCode(s[..|s| - 1]);
      CongruentAffine(h as int, PolynomialHash(s[..|s| - 1]), 31, s[|s| - 1] as int);
      Wrap32Congruent(31 * h as int + s[|s| - 1] as int, PolynomialHash(s));
      Wrap32(31 * h as int + s[|s| - 1] as int)
  }

  /**
   * Twice the hash of the folded name plus the session's identity hash, in
   * `int` arithmetic: the exact value wrapped once.
   */
  function ChannelHashCode(c: ChannelSnapshot): (r: int32)
    ensures r == Wrap32(2 * PolynomialHash(c.client.fold(c.name)) + c.client.identityHash as int)
  {
    var h := StringHashCode(c.client.fold(c.name));
    CongruentAffine(h as int, PolynomialHash(c.client.fold(c.name)), 2, c.client.identityHash as int);
    Wrap32Congruent(h as int * 2 + c.client.identityHash as int,
                    2 * PolynomialHash(c.client.fold(c.name)) + c.client.identityHash as int);
    Wrap32(h as int * 2 + c.client.identityHash as int)
  }

  /** Twice the hash of the folded mask plus the session's identity hash, wrapped once. */
  function UserHashCode(u: UserSnapshot): (r: int32)
    ensures r == Wrap32(2 * PolynomialHash(u.client.fold(u.mask)) + u.client.identityHash as int)
  {
    var h := StringHashCode(u.client.fold(u.mask));
    CongruentAffine(h as int, PolynomialHash(u.client.fold(u.mask)), 2, u.client.identityHash as int);
    Wrap32Congruent(h as int * 2 + u.client.identityHash as int,
                    2 * PolynomialHash(u.client.fold(u.mask)) + u.client.identityHash as int);
    Wrap32(h as int * 2 + u.client.identityHash as int)
  }

  /** Channel snapshot equality is an equivalence and agrees with the hash code. */
  lemma ChannelEqualsContract(a: ChannelSnapshot, b: ChannelSnapshot, c: ChannelSnapshot)
    ensures ChannelEquals(a, a)
    ensures ChannelEquals(a, b) ==> ChannelEquals(b, a)
    ensures ChannelEquals(a, b) && ChannelEquals(b, c) ==> ChannelEquals(a, c)
    ensures ChannelEquals(a, b) ==> ChannelHashCode(a) == ChannelHashCode(b)
  {
  }

  /** User snapshot equality is an equivalence and agrees with the hash code. */
  lemma UserEqualsContract(a: UserSnapshot, b: UserSnapshot, c: UserSnapshot)
    ensures UserEquals(a, a)
    ensures UserEquals(a, b) ==> UserEquals(b, a)
    ensures UserEquals(a, b) && UserEquals(b, c) ==> UserEquals(a, c)
    ensures UserEquals(a, b) ==> UserHashCode(a) == UserHashCode(b)
  {
  }
}
