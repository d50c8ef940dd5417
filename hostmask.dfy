/**
 * The identity-string shape `nick!user@host` recognised by the actor
 * classifier: the whole string must match `([^!@]+)!([^!@]+)@([^!@]+)`.
 * The regular expression is encoded directly as a parser on strings.
 */
module Hostmask {
  import opened Wrappers

  /** The three groups of a matched hostmask. */
  datatype Parts = Parts(nick: string, user: string, host: string)

  /** One group of the pattern: `[^!@]+`. */
  predicate IsPart(s: string) {
    |s| > 0 && '!' !in s && '@' !in s
  }

  /** The string `nick!user@host`. */
  function MaskOf(nick: string, user: string, host: string): string {
    nick + "!" + user + "@" + host
  }

  /** Index of the first occurrence of `c` in `s`, or |s| when there is none. */
  function IndexOf(s: string, c: char): (i: nat)
    ensures i <= |s|
    ensures i < |s| ==> s[i] == c
    ensures forall j :: 0 <= j < i ==> s[j] != c
  {
    if |s| == 0 then 0
    else if s[0] == c then 0
    else 1 + IndexOf(s[1..], c)
  }

  /**
   * Whole-string match of the hostmask pattern. Since no group may contain
   * `!` or `@`, the first `!` ends the nick and the first `@` after it ends
   * the user part.
   */
  function Parse(s: string): (r: Option<Parts>)
    ensures r.Some? ==> IsPart(r.value.nick) && IsPart(r.value.user) && IsPart(r.value.host)
    ensures r.Some? ==> s == MaskOf(r.value.nick, r.value.user, r.value.host)
  {
    var i := IndexOf(s, '!');
    if i == |s| then None
    else
      var rest := s[i + 1..];
      var j := IndexOf(rest, '@');
      if j == |rest| then None
      else
        var nick, user, host := s[..i], rest[..j], rest[j + 1..];
        if IsPart(nick) && IsPart(user) && IsPart(host) then
          assert s == s[..i] + "!" + rest;
          assert rest == user + "@" + host;
          Some(Parts(nick, user, host))
        else None
  }

  /** IndexOf stops exactly at the separator that follows a separator-free prefix. */
  lemma {:induction false} IndexOfAfterPrefix(a: string, c: char, b: string)
    requires c !in a
    ensures IndexOf(a + [c] + b, c) == |a|
  {
    if |a| > 0 {
      assert (a + [c] + b)[1..] == a[1..] + [c] + b;
      IndexOfAfterPrefix(a[1..], c, b);
    }
  }

  /** Every well-formed `nick!user@host` parses back into its three groups. */
  lemma ParseMaskOf(nick: string, user: string, host: string)
    requires IsPart(nick) && IsPart(user) && IsPart(host)
    ensures Parse(MaskOf(nick, user, host)) == Some(Parts(nick, user, host))
  {
    var s := MaskOf(nick, user, host);
    var tail := user + "@" + host;
    assert s == nick + ['!'] + tail;
    IndexOfAfterPrefix(nick, '!', tail);
    assert s[..|nick|] == nick;
    assert s[|nick| + 1..] == tail;
    assert tail == user + ['@'] + host;
    IndexOfAfterPrefix(user, '@', host);
    assert tail[..|user|] == user;
    assert tail[|user| + 1..] == host;
  }

  /** A string is a hostmask exactly when it is `MaskOf` of three well-formed groups. */
  lemma ParseIff(s: string, nick: string, user: string, host: string)
    ensures Parse(s) == Some(Parts(nick, user, host)) <==>
            (IsPart(nick) && IsPart(user) && IsPart(host) && s == MaskOf(nick, user, host))
  {
    if IsPart(nick) && IsPart(user) && IsPart(host) && s == MaskOf(nick, user, host) {
      ParseMaskOf(nick, user, host);
    }
  }

  /** Number of occurrences of `c` in `s`. */
  function Count(s: string, c: char): nat {
    multiset(s)[c]
  }

  /** The separators of a mask are its own two plus those inside its groups. */
  lemma CountMaskOf(nick: string, user: string, host: string, c: char)
    ensures Count(MaskOf(nick, user, host), c) ==
            Count(nick, c) + Count(user, c) + Count(host, c)
            + (if c == '!' then 1 else 0) + (if c == '@' then 1 else 0)
  {
    assert multiset(MaskOf(nick, user, host)) ==
           multiset(nick) + multiset("!") + multiset(user) + multiset("@") + multiset(host);
  }

  /** A mask whose nick group is empty or holds a separator is not a hostmask. */
  lemma ParseRejectsNick(nick: string, user: string, host: string)
    requires IsPart(user) && IsPart(host) && !IsPart(nick)
    ensures Parse(MaskOf(nick, user, host)).None?
  {
    var s := MaskOf(nick, user, host);
    if Parse(s).Some? {
      var q := Parse(s).value;
      CountMaskOf(nick, user, host, '!');
      CountMaskOf(nick, user, host, '@');
      CountMaskOf(q.nick, q.user, q.host, '!');
      CountMaskOf(q.nick, q.user, q.host, '@');
      assert false;
    }
  }

  /** `mask` with everything before its first `!` replaced by `newNick`. */
  function WithNick(mask: string, newNick: string): string {
    newNick + mask[IndexOf(mask, '!')..]
  }

  /** Replacing the nick group of a hostmask keeps its user and host groups. */
  lemma WithNickKeepsRest(p: Parts, newNick: string)
    requires IsPart(p.nick)
    ensures WithNick(MaskOf(p.nick, p.user, p.host), newNick) == MaskOf(newNick, p.user, p.host)
  {
    var mask := MaskOf(p.nick, p.user, p.host);
    var tail := p.user + "@" + p.host;
    assert mask == p.nick + ['!'] + tail;
    IndexOfAfterPrefix(p.nick, '!', tail);
    assert mask[|p.nick|..] == ['!'] + tail;
    assert MaskOf(newNick, p.user, p.host) == newNick + (['!'] + tail);
  }

  /** With well-formed user and host, `nick!user@host` parses exactly when the nick is well-formed. */
  lemma ParseNick(nick: string, user: string, host: string)
    requires IsPart(user) && IsPart(host)
    ensures Parse(MaskOf(nick, user, host)).Some? <==> IsPart(nick)
    ensures IsPart(nick) ==> Parse(MaskOf(nick, user, host)) == Some(Parts(nick, user, host))
  {
    if IsPart(nick) {
      ParseMaskOf(nick, user, host);
    } else {
      ParseRejectsNick(nick, user, host);
    }
  }

  /**
   * A nick change rebuilds the mask as `newNick` followed by the old mask from
   * its first `!` on. The result is again a hostmask exactly when `newNick` is
   * a well-formed group, and then its groups are `newNick` and the old user
   * and host.
   */
  lemma WithNickParses(mask: string, p: Parts, newNick: string)
    requires Parse(mask) == Some(p)
    ensures WithNick(mask, newNick) == MaskOf(newNick, p.user, p.host)
    ensures Parse(WithNick(mask, newNick)).Some? <==> IsPart(newNick)
    ensures IsPart(newNick) ==>
            Parse(WithNick(mask, newNick)) == Some(Parts(newNick, p.user, p.host))
  {
    ParseIff(mask, p.nick, p.user, p.host);
    WithNickKeepsRest(p, newNick);
    ParseNick(newNick, p.user, p.host);
  }
}
