/**
 * The collaborators and plain values the tracker works with: the client
 * session (its case mapping, its channel-name rule and its outbound line
 * queue), channel-user modes and users parsed from a hostmask.
 */
module Elements {
  import opened Wrappers
  import opened Hostmask

  /** A Java `int`. */
  newtype int32 = x: int | -0x8000_0000 <= x < 0x8000_0000

  /** Two's-complement wrap-around of a mathematical integer into an `int`. */
  function Wrap32(x: int): (r: int32)
    ensures (r as int - x) % 0x1_0000_0000 == 0
  {
    (((x + 0x8000_0000) % 0x1_0000_0000) - 0x8000_0000) as int32
  }

  /** Adding a multiple of 2^32 does not change the remainder. */
  lemma ModMultiple(a: int, k: int)
    ensures (a + k * 0x1_0000_0000) % 0x1_0000_0000 == a % 0x1_0000_0000
  {
  }

  /** Values congruent modulo 2^32 wrap to the same `int`. */
  lemma Wrap32Congruent(x: int, y: int)
    requires (x - y) % 0x1_0000_0000 == 0
    ensures Wrap32(x) == Wrap32(y)
  {
    var k := (x - y) / 0x1_0000_0000;
    assert x + 0x8000_0000 == (y + 0x8000_0000) + k * 0x1_0000_0000;
    ModMultiple(y + 0x8000_0000, k);
  }

  /** Congruence modulo 2^32 is kept by `m * _ + c`. */
  lemma CongruentAffine(a: int, b: int, m: int, c: int)
    requires (a - b) % 0x1_0000_0000 == 0
    ensures ((m * a + c) - (m * b + c)) % 0x1_0000_0000 == 0
  {
    var k := (a - b) / 0x1_0000_0000;
    assert a - b == k * 0x1_0000_0000;
    assert (m * a + c) - (m * b + c) == (m * k) * 0x1_0000_0000 by {
      assert (m * a + c) - (m * b + c) == m * (a - b);
    }
    ModMultiple(0, m * k);
  }

  /**
   * One client session. The case mapping and the valid-channel rule come from
   * the server and are given as functions; `identityHash` stands for the
   * session object's identity hash code. `requested` records every line the
   * tracker asked the session to send.
   */
  class Client {
    const fold: string -> string
    const isValidChannel: string -> bool
    const identityHash: int32
    var requested: seq<string>

    constructor (fold: string -> string, isValidChannel: string -> bool, identityHash: int32)
      ensures this.fold == fold && this.isValidChannel == isValidChannel
      ensures this.identityHash == identityHash
      ensures requested == []
    {
      this.fold := fold;
      this.isValidChannel := isValidChannel;
      this.identityHash := identityHash;
      requested := [];
    }

    /** Queues `line` for sending; suppressing duplicates is the session's business. */
    method SendRawLineAvoidingDuplication(line: string)
      modifies this`requested
      ensures requested == old(requested) + [line]
    {
      requested := requested + [line];
    }
  }

  /**
   * A channel-user mode such as operator or voice. The source type does not
   * override equality, so two modes are the same only when they are the same
   * object; sets of this class compare by reference in the same way.
   */
  class ChannelUserMode {
    const mode: char
    const prefix: char

    constructor (mode: char, prefix: char)
      ensures this.mode == mode && this.prefix == prefix
    {
      this.mode := mode;
      this.prefix := prefix;
    }
  }

  /** A user known by its full mask and the three parts parsed from it. */
  datatype User = User(mask: string, nick: string, user: string, host: string) {
    /** The user was built from a whole-string hostmask match of its mask. */
    predicate WellFormed() {
      Parse(mask) == Some(Parts(nick, user, host))
    }
  }
}
