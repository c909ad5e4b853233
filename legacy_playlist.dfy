/** The stand-alone `Playlist` record of the first version of the program:
    the same three fields as a resource, equality and hash code by id only. */
module LegacyPlaylist {
  import opened Outcomes
  import opened Resources

  class Playlist {
    var name: JString
    var id: JString
    var includeInShuffle: bool

    constructor ()
      ensures View() == Entity(None, None, false)
    {
      name := None;
      id := None;
      includeInShuffle := false;
    }

    function View(): Entity
      reads this
    {
      Entity(name, id, includeInShuffle)
    }

    method SetName(n: JString)
      modifies this
      ensures View() == old(View()).(name := n)
    {
      name := n;
    }

    method SetId(i: JString)
      modifies this
      ensures View() == old(View()).(id := i)
    {
      id := i;
    }

    method SetIncludeInShuffle(b: bool)
      modifies this
      ensures View() == old(View()).(includeInShuffle := b)
    {
      includeInShuffle := b;
    }

    /** `equals(o)`: `o` is a playlist whose id is null-safe equal; the name
        and the flag are ignored. */
    predicate Equals(o: Playlist?)
      reads this, o
      ensures Equals(o) <==> o != null && o.View().id == View().id
      ensures o == null ==> !Equals(o)
    {
      o != null && id == o.id
    }

    /** `hashCode()`: `Objects.hashCode(id)`, an `int` that is 0 for a
        missing id. */
    function HashCode(): (r: int)
      reads this
      ensures -0x8000_0000 <= r < 0x8000_0000
      ensures id.None? ==> r == 0
    {
      NullSafeHash(id)
    }
  }

  /** `equals` is reflexive and symmetric, and equal playlists have equal hash
      codes. */
  lemma PlaylistEqualsContract(a: Playlist, b: Playlist)
    ensures a.Equals(a)
    ensures a.Equals(b) <==> b.Equals(a)
    ensures a.Equals(b) ==> a.HashCode() == b.HashCode()
  {
  }
}
