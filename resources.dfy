/** `SpotifyResource`, the base of the stored `Playlist` and `Artist` records:
    three mutable fields, equality and hash code by id only. */
module Resources {
  import opened Outcomes

  /** The value of a stored playlist or artist record. */
  datatype Entity = Entity(name: JString, id: JString, includeInShuffle: bool)

  /** The runtime class of a resource: `getClass()` in `equals`. */
  datatype ResourceClass = PlaylistClass | ArtistClass

  const TwoTo32: int := 0x1_0000_0000

  /** Java `int` wrap-around of an exact result. */
  function Int32(x: int): (r: int)
    ensures -0x8000_0000 <= r < 0x8000_0000
    ensures (x - r) % TwoTo32 == 0
  {
    var m := x % TwoTo32;
    if m >= 0x8000_0000 then m - TwoTo32 else m
  }

  /** `String.hashCode()`: `h = 31 * h + c` over the characters, in `int`. */
  function StringHash(s: string): (r: int)
    ensures -0x8000_0000 <= r < 0x8000_0000
    decreases |s|
  {
    if s == [] then 0 else Int32(31 * StringHash(s[..|s| - 1]) + s[|s| - 1] as int)
  }

  /** `Objects.hashCode(o)`: 0 for `null`. */
  function NullSafeHash(s: JString): (r: int)
    ensures -0x8000_0000 <= r < 0x8000_0000
    ensures s.None? ==> r == 0
  {
    match s
    case None => 0
    case Some(v) => StringHash(v)
  }

  /** `Objects.hash(id)`, that is `31 * 1 + Objects.hashCode(id)` in `int`. */
  function ObjectsHash(s: JString): int {
    Int32(31 + NullSafeHash(s))
  }

  /** `SpotifyResource.equals` on two non-null resources given by their runtime
      class and field values. */
  predicate ResourceEquals(c: ResourceClass, a: Entity, d: ResourceClass, b: Entity) {
    c == d && a.id == b.id
  }

  /** Neither the name nor the include flag take part in equality. */
  lemma EqualsIgnoresNameAndFlag(c: ResourceClass, a: Entity, d: ResourceClass, b: Entity, n: JString, f: bool)
    ensures ResourceEquals(c, a, d, b) == ResourceEquals(c, a.(name := n, includeInShuffle := f), d, b)
    ensures ResourceEquals(c, a, d, b) == ResourceEquals(c, a, d, b.(name := n, includeInShuffle := f))
  {
  }

  class SpotifyResource {
    const runtimeClass: ResourceClass
    var name: JString
    var id: JString
    var includeInShuffle: bool

    /** A new `Playlist` or `Artist`: every field holds Java's default. */
    constructor (c: ResourceClass)
      ensures runtimeClass == c && View() == Entity(None, None, false)
    {
      runtimeClass := c;
      name := None;
      id := None;
      includeInShuffle := false;
    }

    function View(): Entity
      reads this
    {
      Entity(name, id, includeInShuffle)
    }

    method SetName(n: JString)
      modifies this
      ensures View() == old(View()).(name := n)
    {
      name := n;
    }

    method SetId(i: JString)
      modifies this
      ensures View() == old(View()).(id := i)
    {
      id := i;
    }

    method SetIncludeInShuffle(b: bool)
      modifies this
      ensures View() == old(View()).(includeInShuffle := b)
    {
      includeInShuffle := b;
    }

    /** `equals(o)`: the same object, or an object of the same runtime class
        whose id is null-safe equal. */
    predicate Equals(o: SpotifyResource?)
      reads this, o
      ensures Equals(o) <==> o != null && ResourceEquals(runtimeClass, View(), o.runtimeClass, o.View())
      ensures o == null ==> !Equals(o)
    {
      if this == o then true
      else if o == null || runtimeClass != o.runtimeClass then false
      else id == o.id
    }

    /** `hashCode()`: a function of the id alone, `31 + Objects.hashCode(id)`
        wrapped to an `int`; 31 for a missing id. */
    function HashCode(): (r: int)
      reads this
      ensures -0x8000_0000 <= r < 0x8000_0000
      ensures (r - (31 + NullSafeHash(id))) % TwoTo32 == 0
      ensures id.None? ==> r == 31
    {
      ObjectsHash(id)
    }
  }

  /** `equals` is reflexive and symmetric, and equal resources have equal hash
      codes. */
  lemma EqualsContract(a: SpotifyResource, b: SpotifyResource)
    ensures a.Equals(a)
    ensures a.Equals(b) <==> b.Equals(a)
    ensures a.Equals(b) ==> a.HashCode() == b.HashCode()
  {
  }
}
