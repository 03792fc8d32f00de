/**
 * Locating a value inside a record: a path of member names and array
 * indices, as a consumer writes `shared.player.position[1]`, leads to a byte
 * offset and the type stored there.
 */
module Access {
  import opened Results
  import opened Layout

  /** One step of a path: a named member of a struct, or an array element. */
  datatype Step<N> = Member(name: N) | Element(index: nat)

  /** Where a value lies: its byte offset inside the record and its type. */
  datatype Place<N> = Place(offset: nat, ty: Ty<N>)

  datatype LocateError =
    | NoSuchField      // a struct has no member of that name
    | ReservedField    // the member is a padding field, which carries no data
    | IndexOutOfRange  // an array index at or past the array length
    | NotAggregate     // a member step into a non-struct, or an index step into a non-array

  /** The first field at or after `from` whose name is `name`. */
  function FieldIndexFrom<N(==)>(fs: seq<Field<N>>, name: N, from: nat): (r: Option<nat>)
    requires from <= |fs|
    ensures r.Some? ==>
      from <= r.value < |fs| && fs[r.value].name == name &&
      forall j :: from <= j < r.value ==> fs[j].name != name
    ensures r.None? ==> forall j :: from <= j < |fs| ==> fs[j].name != name
    decreases |fs| - from
  {
    if from == |fs| then None
    else if fs[from].name == name then Some(from)
    else FieldIndexFrom(fs, name, from + 1)
  }

  /** The index of the first field named `name`, as a C or C# compiler resolves `s.name`. */
  function FieldIndex<N(==)>(fs: seq<Field<N>>, name: N): (r: Option<nat>)
    ensures r.Some? ==>
      r.value < |fs| && fs[r.value].name == name &&
      forall j :: 0 <= j < r.value ==> fs[j].name != name
    ensures r.None? <==> forall j :: 0 <= j < |fs| ==> fs[j].name != name
  {
    FieldIndexFrom(fs, name, 0)
  }

  /** The place one step leads to from a value of type `t`, inside that value. */
  function Child<N(==)>(rule: Rule, t: Ty<N>, step: Step<N>): (r: Result<Place<N>, LocateError>)
    ensures r.Ok? ==> r.value.offset + Size(rule, r.value.ty) <= Size(rule, t)
    ensures step.Member? && !t.Struct? ==> r == Err(NotAggregate)
    ensures step.Member? && t.Struct? && FieldIndex(t.fields, step.name).None? ==> r == Err(NoSuchField)
    ensures step.Member? && t.Struct? && FieldIndex(t.fields, step.name).Some? ==>
      (r == Err(ReservedField) <==> t.fields[FieldIndex(t.fields, step.name).value].Padding?)
    ensures step.Element? && !t.Arr? ==> r == Err(NotAggregate)
    ensures step.Element? && t.Arr? && step.index >= t.count ==> r == Err(IndexOutOfRange)
    ensures step.Element? && t.Arr? && step.index < t.count ==> r.Ok?
  {
    match step
    case Member(name) =>
      if !t.Struct? then Err(NotAggregate)
      else (
        match FieldIndex(t.fields, name)
        case None => Err(NoSuchField)
        case Some(i) =>
          if t.fields[i].Padding? then Err(ReservedField)
          else
            FieldInStruct(rule, t.fields, i);
            Ok(Place(OffsetAt(rule, t.fields, i), t.fields[i].ty)))
    case Element(i) =>
      if !t.Arr? then Err(NotAggregate)
      else if i >= t.count then Err(IndexOutOfRange)
      else
        ElementInArray(rule, t.elem, t.count, i);
        Ok(Place(i * Size(rule, t.elem), t.elem))
  }

  /** A located place moved `d` bytes further in; errors are kept. */
  function Within<N>(d: nat, r: Result<Place<N>, LocateError>): (w: Result<Place<N>, LocateError>)
    ensures w.Ok? <==> r.Ok?
    ensures w.Err? ==> w.error == r.error
    ensures w.Ok? ==> w.value.offset == d + r.value.offset && w.value.ty == r.value.ty
  {
    match r
    case Ok(p) => Ok(Place(d + p.offset, p.ty))
    case Err(e) => Err(e)
  }

  /**
   * Follows `path` from a value of type `t`. When it succeeds, the place it
   * reaches lies entirely inside `t`.
   */
  function Locate<N(==)>(rule: Rule, t: Ty<N>, path: seq<Step<N>>): (r: Result<Place<N>, LocateError>)
    ensures r.Ok? ==> r.value.offset + Size(rule, r.value.ty) <= Size(rule, t)
    ensures path == [] ==> r == Ok(Place(0, t))
    decreases |path|
  {
    if path == [] then Ok(Place(0, t))
    else
      match Child(rule, t, path[0])
      case Err(e) => Err(e)
      case Ok(c) => Within(c.offset, Locate(rule, c.ty, path[1..]))
  }

  /**
   * Following `p` and then `q` is following `p + q`: offsets add up, and a
   * path that fails part-way fails with the same error however it goes on.
   */
  lemma {:induction false} LocateConcat<N>(rule: Rule, t: Ty<N>, p: seq<Step<N>>, q: seq<Step<N>>)
    ensures var first, whole := Locate(rule, t, p), Locate(rule, t, p + q);
      first.Err? ==> whole.Err? && whole.error == first.error
    ensures var first, whole := Locate(rule, t, p), Locate(rule, t, p + q);
      first.Ok? ==>
        var rest := Locate(rule, first.value.ty, q);
        (whole.Ok? <==> rest.Ok?) &&
        (whole.Err? ==> whole.error == rest.error) &&
        (whole.Ok? ==> whole.value.offset == first.value.offset + rest.value.offset && whole.value.ty == rest.value.ty)
    decreases |p|
  {
    if p == [] {
      assert p + q == q;
    } else {
      var pq := p + q;
      assert pq[0] == p[0];
      assert pq[1..] == p[1..] + q;
      var child := Child(rule, t, p[0]);
      if child.Ok? {
        LocateConcat(rule, child.value.ty, p[1..], q);
      }
    }
  }

  /** A single member step reaches the data field of that name at its offset. */
  lemma LocateMember<N>(rule: Rule, fs: seq<Field<N>>, i: nat)
    requires i < |fs| && fs[i].Data?
    requires forall j :: 0 <= j < i ==> fs[j].name != fs[i].name
    ensures Locate(rule, Struct(fs), [Member(fs[i].name)]) == Ok(Place(OffsetAt(rule, fs, i), fs[i].ty))
  {
    var r := FieldIndex(fs, fs[i].name);
    assert r.Some? && r.value == i;
    assert [Member(fs[i].name)][1..] == [];
  }

  /** A member step fails exactly when no field has that name, or the first one is padding. */
  lemma LocateMemberFails<N>(rule: Rule, fs: seq<Field<N>>, name: N)
    ensures Locate(rule, Struct(fs), [Member(name)]) == Err(NoSuchField) <==>
      forall j :: 0 <= j < |fs| ==> fs[j].name != name
    ensures Locate(rule, Struct(fs), [Member(name)]) == Err(ReservedField) <==>
      exists i :: 0 <= i < |fs| && fs[i].name == name && fs[i].Padding? &&
        forall j :: 0 <= j < i ==> fs[j].name != name
  {
    assert [Member(name)][1..] == [];
    var r := FieldIndex(fs, name);
    if r.Some? {
      var i := r.value;
      forall i' | 0 <= i' < |fs| && fs[i'].name == name && (forall j :: 0 <= j < i' ==> fs[j].name != name)
        ensures i' == i
      {
      }
    }
  }

  /** An index step reaches element `i`, `i` element sizes into the array. */
  lemma LocateElement<N>(rule: Rule, e: Ty<N>, n: nat, i: nat)
    ensures i < n ==> Locate(rule, Arr(e, n), [Element(i)]) == Ok(Place(i * Size(rule, e), e))
    ensures i >= n ==> Locate(rule, Arr(e, n), [Element(i)]) == Err(IndexOutOfRange)
  {
    var path: seq<Step<N>> := [Element(i)];
    assert path[1..] == [];
    var c := Child(rule, Arr(e, n), path[0]);
    if i < n {
      assert c == Ok(Place(i * Size(rule, e), e));
      assert Locate(rule, Arr(e, n), path) == Within(c.value.offset, Locate(rule, e, []));
    }
  }

  /** Two different members of one struct never share a byte. */
  lemma MembersDisjoint<N>(rule: Rule, fs: seq<Field<N>>, a: N, b: N)
    requires a != b
    requires Locate(rule, Struct(fs), [Member(a)]).Ok?
    requires Locate(rule, Struct(fs), [Member(b)]).Ok?
    ensures var p, q := Locate(rule, Struct(fs), [Member(a)]).value, Locate(rule, Struct(fs), [Member(b)]).value;
      p.offset + Size(rule, p.ty) <= q.offset || q.offset + Size(rule, q.ty) <= p.offset
  {
    assert [Member(a)][1..] == [];
    assert [Member(b)][1..] == [];
    var i, j := FieldIndex(fs, a).value, FieldIndex(fs, b).value;
    assert i != j;
    if i < j {
      FieldsDisjoint(rule, fs, i, j);
    } else {
      FieldsDisjoint(rule, fs, j, i);
    }
  }
}
