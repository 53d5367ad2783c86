/** An enumerable set of node ids, as the registry keeps one for all live
    nodes and one per holder: an array of values plus a map from each value
    to its slot. Insertion appends; removal moves the last value into the
    freed slot and pops the array ("swap and pop"), so enumeration order is
    insertion order until the first removal and changes in a fixed,
    observable way afterwards. */
module EnumerableSet {

  datatype Option<T> = None | Some(value: T)

  datatype IdSet = IdSet(values: seq<nat>, positions: map<nat, nat>)
  {
    /** The array and the slot map describe each other exactly. */
    ghost predicate Valid() {
      && (forall i | 0 <= i < |values| :: values[i] in positions && positions[values[i]] == i)
      && (forall v | v in positions :: positions[v] < |values| && values[positions[v]] == v)
    }

    ghost function Elements(): set<nat> {
      positions.Keys
    }

    predicate Contains(v: nat) {
      v in positions
    }

    function Length(): nat {
      |values|
    }

    /** Inserting a new value appends it; inserting a present value changes nothing. */
    function Add(v: nat): (t: IdSet)
      ensures Valid() ==> t.Valid()
      ensures t.Elements() == Elements() + {v}
      ensures Contains(v) ==> t == this
      ensures !Contains(v) ==> t.values == values + [v]
    {
      if v in positions then this
      else IdSet(values + [v], positions[v := |values|])
    }

    /** Removing a present value shortens the array by one, moves the last
        value into the removed value's slot and leaves every other slot as it
        was; removing an absent value changes nothing. */
    function Remove(v: nat): (t: IdSet)
      requires Valid()
      ensures t.Valid()
      ensures t.Elements() == Elements() - {v}
      ensures !Contains(v) ==> t == this
      ensures Contains(v) ==> |t.values| == |values| - 1
      ensures Contains(v) ==>
        forall i | 0 <= i < |t.values| && i != positions[v] :: t.values[i] == values[i]
      ensures Contains(v) && positions[v] < |t.values| ==>
        t.values[positions[v]] == values[|values| - 1]
    {
      if v !in positions then this
      else
        var slot := positions[v];
        var last := |values| - 1;
        var moved := values[last];
        IdSet(values[slot := moved][..last], positions[moved := slot] - {v})
    }

    /** The value in slot `i`, or None when `i` is at or beyond the length. */
    function At(i: nat): (r: Option<nat>)
      requires Valid()
      ensures r.Some? <==> i < Length()
      ensures r.Some? ==> Contains(r.value) && positions[r.value] == i
    {
      if i < |values| then Some(values[i]) else None
    }
  }

  const Empty := IdSet([], map[])

  lemma EmptyIsValid()
    ensures Empty.Valid() && Empty.Elements() == {} && Empty.Length() == 0
  {
  }

  ghost function SetOf(s: seq<nat>): set<nat> {
    set v | v in s
  }

  ghost predicate Distinct(s: seq<nat>) {
    forall i, j | 0 <= i < j < |s| :: s[i] != s[j]
  }

  /** The array never holds a value twice, and it holds exactly the elements. */
  lemma ValuesAreElements(s: IdSet)
    requires s.Valid()
    ensures Distinct(s.values)
    ensures SetOf(s.values) == s.Elements()
  {
    forall i, j | 0 <= i < j < |s.values|
      ensures s.values[i] != s.values[j]
    {
      assert s.positions[s.values[i]] == i && s.positions[s.values[j]] == j;
    }
    forall v | v in s.Elements()
      ensures v in s.values
    {
      assert s.values[s.positions[v]] == v;
    }
  }

  lemma {:induction false} DistinctCardinality(s: seq<nat>)
    requires Distinct(s)
    ensures |SetOf(s)| == |s|
  {
    if s == [] {
      assert SetOf(s) == {};
    } else {
      var init := s[..|s| - 1];
      var last := s[|s| - 1];
      assert Distinct(init);
      DistinctCardinality(init);
      assert last !in SetOf(init);
      assert s == init + [last];
      assert SetOf(s) == SetOf(init) + {last};
    }
  }

  /** The enumeration length is the number of elements. */
  lemma LengthIsCardinality(s: IdSet)
    requires s.Valid()
    ensures s.Length() == |s.Elements()|
  {
    ValuesAreElements(s);
    DistinctCardinality(s.values);
  }

  /** Every element is enumerated at exactly one index. */
  lemma EnumeratedOnce(s: IdSet, v: nat)
    requires s.Valid() && v in s.Elements()
    ensures exists i :: 0 <= i < s.Length() && s.At(i) == Some(v)
    ensures forall i | 0 <= i < s.Length() && s.At(i) == Some(v) :: i == s.positions[v]
  {
    assert s.At(s.positions[v]) == Some(v);
  }

  /** Swap and pop on the array alone: `t` is `s` with the slot holding `v`
      overwritten by the last value and the last slot dropped. */
  ghost predicate SwappedOut(s: seq<nat>, v: nat, t: seq<nat>) {
    && |t| + 1 == |s|
    && forall i | 0 <= i < |t| :: t[i] == if s[i] == v then s[|s| - 1] else s[i]
  }

  /** Removing a present value is a swap and pop on the array. */
  lemma RemoveSwapsOut(s: IdSet, v: nat)
    requires s.Valid() && s.Contains(v)
    ensures SwappedOut(s.values, v, s.Remove(v).values)
  {
    var t := s.Remove(v);
    forall i | 0 <= i < |t.values|
      ensures t.values[i] == if s.values[i] == v then s.values[|s.values| - 1] else s.values[i]
    {
      assert s.values[i] == v <==> i == s.positions[v];
    }
  }
}
