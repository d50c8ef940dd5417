/**
 * The mode map of a channel as the source keeps it: each nick maps to a
 * mutable set object, and the mode mutators change that object in place.
 * A channel snapshot copies the map itself (a fresh map holding the same set
 * objects), so a later in-place change to an existing nick's set shows
 * through every earlier snapshot. The main model copies the sets by value;
 * this module exists to exhibit the difference.
 */
module SharedModeSets {
  import opened Elements

  /** A mutable set of channel-user modes. */
  class ModeSetObject {
    var elems: set<ChannelUserMode>

    constructor (elems: set<ChannelUserMode>)
      ensures this.elems == elems
    {
      this.elems := elems;
    }
  }

  /** The live mode map of one channel, keyed by folded nick. */
  class LiveModes {
    var entries: map<string, ModeSetObject>

    constructor ()
      ensures entries == map[]
    {
      entries := map[];
    }

    /** A join files a new, empty set object under the nick. */
    method TrackUserJoin(k: string)
      modifies this`entries
      ensures k in entries && fresh(entries[k]) && entries[k].elems == {}
      ensures entries == old(entries)[k := entries[k]]
    {
      var s := new ModeSetObject({});
      entries := entries[k := s];
    }

    /** The set object of `k`, created empty and stored when missing. */
    method GetModes(k: string) returns (s: ModeSetObject)
      modifies this`entries
      ensures k in old(entries) ==> s == old(entries)[k] && entries == old(entries)
      ensures k !in old(entries) ==> fresh(s) && s.elems == {} && entries == old(entries)[k := s]
    {
      if k in entries {
        s := entries[k];
      } else {
        s := new ModeSetObject({});
        entries := entries[k := s];
      }
    }

    /**
     * Adds `mode` to the set object of `k` in place. When `k` already had an
     * entry the map itself is unchanged: the same object now holds the mode,
     * so any earlier copy of the map sees it too.
     */
    method TrackUserModeAdd(k: string, mode: ChannelUserMode)
      modifies this`entries, entries.Values`elems
      ensures k in entries
      ensures k in old(entries) ==>
                entries == old(entries) && entries[k].elems == old(entries[k].elems) + {mode}
      ensures k !in old(entries) ==>
                fresh(entries[k]) && entries == old(entries)[k := entries[k]] && entries[k].elems == {mode}
      ensures forall o | o in old(entries.Values) && o != entries[k] :: o.elems == old(o.elems)
    {
      var s := GetModes(k);
      s.elems := s.elems + {mode};
    }
  }

  /**
   * A snapshot taken after a join and before a mode change: its copy of the
   * mode map reports no modes for the nick when taken and the new mode
   * afterwards, although the snapshot itself was never touched.
   */
  method SnapshotSeesLaterModeChange(mode: ChannelUserMode)
    returns (captured: set<ChannelUserMode>, later: set<ChannelUserMode>)
    ensures captured == {} && later == {mode}
  {
    var live := new LiveModes();
    live.TrackUserJoin("alice");
    var copy := map k | k in live.entries :: live.entries[k];
    captured := copy["alice"].elems;
    live.TrackUserModeAdd("alice", mode);
    later := copy["alice"].elems;
  }
}
