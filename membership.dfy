/**
 * The membership state of one channel as a value: `nicks` maps a folded
 * nickname to the user last seen under it, `modes` maps a folded nickname to
 * its channel-user modes. The functions here are the effect of each channel
 * mutator on that pair; keys are already folded by the session's case
 * mapping, except where a user is given, whose nick is folded with `fold`.
 */
module Membership {
  import opened Wrappers
  import opened Elements

  type ModeSet = set<ChannelUserMode>

  datatype Members = Members(nicks: map<string, User>, modes: map<string, ModeSet>)

  /**
   * Every member has a (possibly empty) mode entry, and each member is filed
   * under its own folded nick. Mode entries without a member are allowed.
   */
  predicate MembersValid(fold: string -> string, m: Members) {
    && m.nicks.Keys <= m.modes.Keys
    && forall k | k in m.nicks :: fold(m.nicks[k].nick) == k
  }

  /** The modes held under `k`, empty when there is no entry. */
  function ModesOf(m: Members, k: string): ModeSet {
    if k in m.modes then m.modes[k] else {}
  }

  /** The mode entry for `k` is looked up and created empty when missing. */
  function Ensure(m: Members, k: string): Members {
    if k in m.modes then m else m.(modes := m.modes[k := {}])
  }

  /** `ms` is added to the mode entry of `k` (created when missing). */
  function AddModes(m: Members, k: string, ms: ModeSet): Members {
    m.(modes := m.modes[k := ModesOf(m, k) + ms])
  }

  /** `x` is removed from the mode entry of `k` (created when missing). */
  function RemoveMode(m: Members, k: string, x: ChannelUserMode): Members {
    m.(modes := m.modes[k := ModesOf(m, k) - {x}])
  }

  /** `u` is filed under its folded nick with the given modes, or none. */
  function Join(fold: string -> string, m: Members, u: User, ms: Option<ModeSet>): Members {
    var k := fold(u.nick);
    Members(m.nicks[k := u], m.modes[k := if ms.Some? then ms.value else {}])
  }

  /** Both entries of `k` are dropped. */
  function Part(m: Members, k: string): Members {
    Members(m.nicks - {k}, m.modes - {k})
  }

  /**
   * When `o`'s nick is a member, its two entries are dropped and `n` joins
   * with the mode entry `o` had (none if it had none); otherwise no change.
   */
  function Rename(fold: string -> string, m: Members, o: User, n: User): Members {
    var k := fold(o.nick);
    if k in m.nicks then
      Join(fold, Part(m, k), n, if k in m.modes then Some(m.modes[k]) else None)
    else m
  }

  /** Every mutator keeps the membership invariant. */
  lemma MutatorsKeepValid(fold: string -> string, m: Members, u: User, n: User,
                          k: string, x: ChannelUserMode, ms: ModeSet, given: Option<ModeSet>)
    requires MembersValid(fold, m)
    ensures MembersValid(fold, Ensure(m, k))
    ensures MembersValid(fold, AddModes(m, k, ms))
    ensures MembersValid(fold, RemoveMode(m, k, x))
    ensures MembersValid(fold, Join(fold, m, u, given))
    ensures MembersValid(fold, Part(m, k))
    ensures MembersValid(fold, Rename(fold, m, u, n))
  {
  }

  /**
   * Renaming a member moves it to the new nick together with the very mode
   * set it held, drops the old nick's entries (unless both nicks fold alike)
   * and touches no other nick. Renaming a non-member changes nothing.
   */
  lemma RenameCarriesModes(fold: string -> string, m: Members, o: User, n: User)
    requires MembersValid(fold, m)
    ensures var r := Rename(fold, m, o, n);
            var ko, kn := fold(o.nick), fold(n.nick);
            && (ko in m.nicks ==>
                  && kn in r.nicks && r.nicks[kn] == n
                  && kn in r.modes && r.modes[kn] == m.modes[ko]
                  && (ko != kn ==> ko !in r.nicks && ko !in r.modes)
                  && (forall j | j != ko && j != kn ::
                        (j in r.nicks <==> j in m.nicks) && (j in r.modes <==> j in m.modes))
                  && (forall j | j in r.nicks && j != ko && j != kn :: r.nicks[j] == m.nicks[j])
                  && (forall j | j in r.modes && j != ko && j != kn :: r.modes[j] == m.modes[j]))
            && (ko !in m.nicks ==> r == m)
  {
  }

  /**
   * Renaming a member to a nick nobody holds and back again restores the
   * channel exactly.
   */
  lemma RenameRoundTrip(fold: string -> string, m: Members, o: User, n: User)
    requires MembersValid(fold, m)
    requires fold(o.nick) in m.nicks && m.nicks[fold(o.nick)] == o
    requires fold(n.nick) !in m.modes
    ensures Rename(fold, Rename(fold, m, o, n), n, o) == m
  {
    var ko, kn := fold(o.nick), fold(n.nick);
    var r := Rename(fold, m, o, n);
    assert r == Members(m.nicks - {ko} + map[kn := n], m.modes - {ko} + map[kn := m.modes[ko]]);
    var back := Rename(fold, r, n, o);
    assert back.nicks == m.nicks by {
      assert back.nicks.Keys == m.nicks.Keys;
    }
    assert back.modes == m.modes by {
      assert back.modes.Keys == m.modes.Keys;
    }
  }

  /** A part right after the join of a newcomer leaves the channel as it was. */
  lemma PartUndoesJoin(fold: string -> string, m: Members, u: User, given: Option<ModeSet>)
    requires fold(u.nick) !in m.nicks && fold(u.nick) !in m.modes
    ensures Part(Join(fold, m, u, given), fold(u.nick)) == m
  {
    var k := fold(u.nick);
    assert (m.nicks[k := u] - {k}).Keys == m.nicks.Keys;
    assert (m.modes[k := {}] - {k}).Keys == m.modes.Keys;
  }

  /** Removing a mode just added to an existing mode entry restores the channel. */
  lemma ModeAddRemoveInverse(m: Members, k: string, x: ChannelUserMode)
    requires k in m.modes && x !in m.modes[k]
    ensures RemoveMode(AddModes(m, k, {x}), k, x) == m
  {
    assert m.modes[k] + {x} - {x} == m.modes[k];
    assert m.modes[k := m.modes[k]] == m.modes;
  }

  /**
   * A mode change or a name-list entry for a nick with no entry creates a
   * mode entry with no member behind it, so mode keys need not be members.
   */
  lemma ModeEntryWithoutMember(m: Members, k: string, x: ChannelUserMode, ms: ModeSet)
    requires k !in m.nicks
    ensures k in AddModes(m, k, ms).modes && k !in AddModes(m, k, ms).nicks
    ensures k in RemoveMode(m, k, x).modes && k !in RemoveMode(m, k, x).nicks
    ensures k in Ensure(m, k).modes && ModesOf(Ensure(m, k), k) == ModesOf(m, k)
    ensures !(AddModes(m, k, ms).modes.Keys <= AddModes(m, k, ms).nicks.Keys)
  {
  }
}
