/**
 * What the three collection readers (camera chain, IMU set, LiDAR list)
 * share: members stored under `<prefix><N>`, a count that is the number
 * of entries, and a lookup that checks only `nr < count` before it
 * builds the key.
 */
module Collections {
  import opened PyValues
  import opened KeyNames

  /**
   * The member document of `<prefix><nr>` after the bounds check
   * `nr >= count`: a missing key is reported by the decorator. Only the
   * upper bound is checked, so a negative `nr` reaches the lookup of
   * `<prefix>-1`, which no collection built by its add method holds.
   */
  function IndexedMember(reader: string, prefix: string, d: Doc, nr: int): (r: Result<Doc>)
    ensures r.Success? <==> nr < |d| && Indexed(prefix, nr) in d && d[Indexed(prefix, nr)].Dict?
    ensures r.Success? ==> r.value == d[Indexed(prefix, nr)].entries
    ensures nr >= |d| ==> r == Failure(ReaderError(reader, OutOfRange(Int(nr))))
    ensures nr < |d| && Indexed(prefix, nr) !in d
            ==> r == Failure(ReaderError(reader, MissingField(Str(Indexed(prefix, nr)))))
  {
    if nr >= |d| then Failure(ReaderError(reader, OutOfRange(Int(nr))))
    else
      CatchKeyError(reader,
        var member :- Get(d, Indexed(prefix, nr));
        if member.Dict? then Success(member.entries) else Failure(TypeError))
  }

  /** The keys are exactly `<prefix>0` .. `<prefix><count-1>`. */
  predicate DenseKeys(prefix: string, d: Doc) {
    d.Keys == IndexedKeys(prefix, |d|)
  }

  /**
   * Storing under `<prefix><count>` keeps the keys dense and adds one
   * entry: the new member is the last one and the earlier ones stay.
   */
  lemma {:induction false} AppendKeepsDense(prefix: string, d: Doc, v: Value)
    requires DenseKeys(prefix, d)
    ensures Indexed(prefix, |d|) !in d
    ensures var d' := d[Indexed(prefix, |d|) := v];
            |d'| == |d| + 1 && DenseKeys(prefix, d')
  {
    IndexedKeysMember(prefix, |d|, |d|);
    var d' := d[Indexed(prefix, |d|) := v];
    assert d'.Keys == d.Keys + {Indexed(prefix, |d|)};
    assert |d'.Keys| == |d.Keys| + 1;
  }

  /** In a dense collection every index below the count names a stored member. */
  lemma {:induction false} DenseLookup(reader: string, prefix: string, d: Doc, nr: int)
    requires DenseKeys(prefix, d) && 0 <= nr < |d|
    ensures Indexed(prefix, nr) in d
    ensures IndexedMember(reader, prefix, d, nr).Success? <==> d[Indexed(prefix, nr)].Dict?
  {
    IndexedKeysMember(prefix, |d|, nr);
  }

  /** In a dense collection a negative index passes the bounds check and then misses. */
  lemma {:induction false} DenseNegativeIndex(reader: string, prefix: string, d: Doc, nr: int)
    requires DenseKeys(prefix, d) && nr < 0
    ensures IndexedMember(reader, prefix, d, nr) == Failure(ReaderError(reader, MissingField(Str(Indexed(prefix, nr)))))
  {
    IndexedKeysMember(prefix, |d|, nr);
  }

  /**
   * When the keys are not dense, storing under `<prefix><count>` can
   * replace a member: a chain holding only `cam1` loses it to the next
   * camera added, and its count stays 1.
   */
  lemma AppendCanOverwrite(old_member: Value, new_member: Value)
    ensures var d := map["cam1" := old_member];
            var d' := d[Indexed("cam", |d|) := new_member];
            d' == map["cam1" := new_member] && |d'| == |d|
  {
    assert Indexed("cam", 1) == "cam1";
  }

  /** The key a set's add method uses: the given name, or `<prefix><counter>`. */
  function MemberKey(prefix: string, counter: nat, name: Option<string>): (k: string)
    ensures name.Some? ==> k == name.value
    ensures name.None? ==> k == Indexed(prefix, counter)
  {
    match name
    case Some(n) => n
    case None => Indexed(prefix, counter)
  }

  /**
   * The counter counts named adds too: after a named member and an
   * unnamed one, the unnamed one is `<prefix>1`, and looking up index 0
   * finds nothing although the set holds two members.
   */
  lemma {:induction false} NamedAddShiftsNumbering(reader: string, prefix: string, name: string, a: Doc, b: Doc)
    requires name != Indexed(prefix, 0) && name != Indexed(prefix, 1)
    ensures var d1 := map[][MemberKey(prefix, 0, Some(name)) := Dict(a)];
            var d2 := d1[MemberKey(prefix, 1, None) := Dict(b)];
            && |d2| == 2
            && IndexedMember(reader, prefix, d2, 0) == Failure(ReaderError(reader, MissingField(Str(Indexed(prefix, 0)))))
            && IndexedMember(reader, prefix, d2, 1) == Success(b)
  {
    IndexedInjective(prefix, 0, 1);
    var d2 := map[name := Dict(a), Indexed(prefix, 1) := Dict(b)];
    assert d2.Keys == {name, Indexed(prefix, 1)};
  }
}
