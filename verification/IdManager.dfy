// The name/id tables of src/IdManager.h.

module IdTables {
  import opened Packets

  const INVALID_STRING := "__INVALID__"
  const CONTROL_STRING := "__CONTROL__"

  /** All names in id order: the two reserved ones, then the application's. */
  function Names(list: seq<string>): seq<string>
  {
    [INVALID_STRING, CONTROL_STRING] + list
  }

  /** Looking a name up gives its position, cut down to a uint32_t. */
  ghost predicate Indexes(ids: map<string, PacketType>, names: seq<string>)
  {
    && (forall name :: name in ids <==> name in names)
    && forall i :: 0 <= i < |names| ==> ids[names[i]] == i % U32
  }

  lemma IndexesAppend(ids: map<string, PacketType>, names: seq<string>, name: string)
    requires Indexes(ids, names) && name !in names
    ensures Indexes(ids[name := |names| % U32], names + [name])
  {
  }

  class IdManager {
    var ids: map<string, PacketType>
    var reverse: seq<string>

    ghost predicate Holds(names: seq<string>)
      reads this
    {
      reverse == names && Indexes(ids, names)
    }

    // The source asserts that no name occurs twice.
    constructor (list: seq<string>)
      requires Distinct(Names(list))
      ensures Holds(Names(list))
    {
      ids := map[INVALID_STRING := INVALID_PACKET, CONTROL_STRING := CONTROL_PACKET];
      reverse := [INVALID_STRING, CONTROL_STRING];
      new;
      ghost var names := Names(list);
      var id: nat := CONTROL_PACKET;
      for i := 0 to |list|
        invariant id == i + 1
        invariant Holds(names[..i + 2])
      {
        assert names[i + 2] == list[i];
        assert list[i] !in names[..i + 2];
        IndexesAppend(ids, names[..i + 2], list[i]);
        id := id + 1;
        ids := ids[list[i] := id % U32];
        reverse := reverse + [list[i]];
        assert names[..i + 3] == names[..i + 2] + [list[i]];
      }
      assert names[..|list| + 2] == names;
    }

    /** None where the source's at() throws std::out_of_range. */
    function ToId(name: string): Option<PacketType>
      reads this
    {
      if name in ids then Some(ids[name]) else None
    }

    // The vector access is unchecked in the source.
    function ToString(id: PacketType): string
      requires id < |reverse|
      reads this
    {
      reverse[id]
    }

    /** The name is found under its own id. */
    predicate FoundAgain(name: string)
      reads this
    {
      ToId(name).Some? && ToId(name).value < |reverse| && ToString(ToId(name).value) == name
    }

    /** The two reserved names have the ids both ends rely on. */
    lemma Reserved(list: seq<string>)
      requires Holds(Names(list))
      ensures ToId("__INVALID__") == Some(0) && ToId("__CONTROL__") == Some(1)
      ensures forall i :: 0 <= i < |list| ==> ToId(list[i]) == Some((i + 2) % 0x1_0000_0000)
    {
      assert Names(list)[0] == INVALID_STRING && Names(list)[1] == CONTROL_STRING;
      forall i | 0 <= i < |list|
        ensures ToId(list[i]) == Some((i + 2) % 0x1_0000_0000)
      {
        assert Names(list)[i + 2] == list[i];
      }
    }

    lemma FoundWhenFits(list: seq<string>)
      requires Distinct(Names(list)) && Holds(Names(list)) && |list| + 2 <= U32
      ensures forall name :: name in Names(list) ==> FoundAgain(name)
      ensures forall id: PacketType :: id < |list| + 2 ==> ToId(ToString(id)) == Some(id)
    {
      forall name | name in Names(list)
        ensures FoundAgain(name)
      {
        var i :| 0 <= i < |Names(list)| && Names(list)[i] == name;
        assert ids[Names(list)[i]] == i % U32 == i;
      }
      forall id: PacketType | id < |list| + 2
        ensures ToId(ToString(id)) == Some(id)
      {
        assert ids[Names(list)[id]] == id % U32 == id;
      }
    }

    /**
     * toId and toString are mutual inverses between the names and 0 .. |list| + 1 exactly when the
     * ids fit in 32 bits.
     */
    lemma InverseIff(list: seq<string>)
      requires Distinct(Names(list)) && Holds(Names(list))
      ensures (forall name :: name in Names(list) ==> FoundAgain(name)) <==> |list| + 2 <= U32
      ensures |list| + 2 <= U32 ==>
                forall id: PacketType :: id < |list| + 2 ==> ToId(ToString(id)) == Some(id)
    {
      if |list| + 2 <= U32 {
        FoundWhenFits(list);
      } else {
        var clash := Names(list)[U32];
        assert ids[Names(list)[U32]] == U32 % U32 == 0;
        assert ToString(0) == Names(list)[0] != clash;
        assert clash in Names(list) && !FoundAgain(clash);
      }
    }
  }
}
