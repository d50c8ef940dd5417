/**
 * The registry of channels as a value: each registered folded channel name
 * maps to the channel's name and membership. A user's channel set, a nick
 * change across all channels and a quit are functions of this view.
 */
module Registry {
  import opened Elements
  import opened Membership

  datatype Entry = Entry(name: string, members: Members)

  type View = map<string, Entry>

  /** Names of the registered channels that have a member under folded nick `k`. */
  function Holders(v: View, k: string): set<string> {
    set key | key in v && k in v[key].members.nicks :: v[key].name
  }

  /** Every registered channel renames `o` to `n`. */
  function RenameAll(fold: string -> string, v: View, o: User, n: User): View {
    map key | key in v :: v[key].(members := Rename(fold, v[key].members, o, n))
  }

  /** Every registered channel drops both entries of folded nick `k`. */
  function PartAll(v: View, k: string): View {
    map key | key in v :: v[key].(members := Part(v[key].members, k))
  }

  /**
   * After a nick change the new nick is in exactly the channels that held
   * the old nick or already held the new one; when the two nicks do not
   * fold alike, the old nick is in none.
   */
  lemma HoldersAfterRename(fold: string -> string, v: View, o: User, n: User)
    ensures Holders(RenameAll(fold, v, o, n), fold(n.nick)) ==
            Holders(v, fold(o.nick)) + Holders(v, fold(n.nick))
    ensures fold(o.nick) != fold(n.nick) ==> Holders(RenameAll(fold, v, o, n), fold(o.nick)) == {}
  {
    var r := RenameAll(fold, v, o, n);
    var ko, kn := fold(o.nick), fold(n.nick);
    forall x | x in Holders(v, ko) + Holders(v, kn)
      ensures x in Holders(r, kn)
    {
      var key :| key in v && (ko in v[key].members.nicks || kn in v[key].members.nicks) && v[key].name == x;
      assert kn in r[key].members.nicks;
    }
    forall x | x in Holders(r, kn)
      ensures x in Holders(v, ko) + Holders(v, kn)
    {
      var key :| key in r && kn in r[key].members.nicks && r[key].name == x;
      assert ko in v[key].members.nicks || kn in v[key].members.nicks;
    }
    if ko != kn {
      assert forall key | key in r :: ko !in r[key].members.nicks;
    }
  }

  /** After a quit the nick is in no channel, and every other nick keeps its channels. */
  lemma HoldersAfterPart(v: View, k: string, j: string)
    ensures Holders(PartAll(v, k), k) == {}
    ensures j != k ==> Holders(PartAll(v, k), j) == Holders(v, j)
  {
    var r := PartAll(v, k);
    assert forall key | key in r :: k !in r[key].members.nicks;
    if j != k {
      forall x | x in Holders(v, j)
        ensures x in Holders(r, j)
      {
        var key :| key in v && j in v[key].members.nicks && v[key].name == x;
        assert j in r[key].members.nicks;
      }
    }
  }
}
