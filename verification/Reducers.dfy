/** The reducers of agent-graph/src/reducer.rs and the laws of folding them. */
module Reducers {
  import opened Values

  /** `AddReducer` computes on `f64`: `float` gives the nearest double, and nothing for a number that is too
    * large. */
  datatype Reducer =
    | LastWriteWins
    | AppendReducer
    | AddReducer(float: real -> Option<real>)
    | MergeReducer
    | FnReducer(func: (Json, Json) -> Result<Json, string>)

  // ---- Append ---------------------------------------------------------------

  /** What a stored value contributes to an appended array: null counts as nothing stored. */
  function BaseItems(current: Json): seq<Json> {
    match current
    case Null => []
    case Arr(items) => items
    case _ => [current]
  }

  /** What an update contributes: here null is an item like any other. */
  function UpdateItems(update: Json): seq<Json> {
    if update.Arr? then update.items else [update]
  }

  function Append(current: Json, update: Json): (r: Json)
    ensures r == Arr(BaseItems(current) + UpdateItems(update))
  {
    match (current, update)
    case (Null, Arr(_)) => update
    case (Null, _) => assert [] + [update] == [update]; Arr([update])
    case (Arr(curr), Arr(upd)) => Arr(curr + upd)
    case (Arr(curr), _) => Arr(curr + [update])
    case (_, Arr(upd)) => Arr([current] + upd)
    case _ => assert [current, update] == [current] + [update]; Arr([current, update])
  }

  // ---- Add ------------------------------------------------------------------

  /** A sum that is too large is stored as null. */
  function Add(float: real -> Option<real>, current: Json, update: Json): Result<Json, string> {
    match current
    case Num(n) => AddTo(float, if float(n).Some? then float(n).value else 0.0, update)
    case Null => AddTo(float, 0.0, update)
    case _ => Err("AddReducer: current value must be a number")
  }

  function AddTo(float: real -> Option<real>, a: real, update: Json): Result<Json, string> {
    match update
    case Num(n) =>
      (match float(n)
       case None => Err("AddReducer: cannot convert update to f64")
       case Some(b) => Ok(if float(a + b).Some? then Num(float(a + b).value) else Null))
    case _ => Err("AddReducer: update value must be a number")
  }

  // ---- Deep merge -----------------------------------------------------------

  /** The value the merge leaves under `k`. */
  function MergedField(current: Json, update: Json, k: string): Json
    requires current.Obj? && update.Obj? && k in current.fields.Keys + update.fields.Keys
    decreases update, 0
  {
    var cur, upd := current.fields, update.fields;
    if k !in upd then cur[k]
    else if k in cur && cur[k].Obj? && upd[k].Obj? then DeepMerge(cur[k], upd[k])
    else upd[k]
  }

  function DeepMerge(current: Json, update: Json): Json
    decreases update, 1
  {
    if current.Obj? && update.Obj? then
      Obj(map k | k in current.fields.Keys + update.fields.Keys :: MergedField(current, update, k))
    else update
  }

  /** The loop of `MergeReducer::reduce`: the fields of the update are visited in any order. */
  method ReduceMerge(current: Json, update: Json) returns (r: Json)
    ensures r == DeepMerge(current, update)
    decreases update
  {
    if !(current.Obj? && update.Obj?) {
      return update;
    }
    var cur, upd := current.fields, update.fields;
    var result := cur;
    var todo := upd.Keys;
    while todo != {}
      invariant todo <= upd.Keys
      invariant result.Keys == cur.Keys + (upd.Keys - todo)
      invariant forall k :: k in result ==>
        result[k] == if k in todo then cur[k] else MergedField(current, update, k)
    {
      var k :| k in todo;
      var v := upd[k];
      if k in result && result[k].Obj? && v.Obj? {
        var merged := ReduceMerge(result[k], v);
        result := result[k := merged];
      } else {
        result := result[k := v];
      }
      todo := todo - {k};
    }
    r := Obj(result);
    assert result == DeepMerge(current, update).fields;
  }

  // ---- Dispatch and folding ---------------------------------------------------

  function Reduce(r: Reducer, current: Json, update: Json): Result<Json, string> {
    match r
    case LastWriteWins => Ok(update)
    case AppendReducer => Ok(Append(current, update))
    case AddReducer(float) => Add(float, current, update)
    case MergeReducer => Ok(DeepMerge(current, update))
    case FnReducer(f) => f(current, update)
  }

  /** `apply_reducer`: a key without a reducer takes the new value. */
  function ApplyReducer(reducers: map<string, Reducer>, key: string, current: Json,
                        update: Json): Result<Json, string> {
    if key in reducers then Reduce(reducers[key], current, update) else Ok(update)
  }

  /** Folding a list of branch values into a base value, stopping at the first error. */
  function Fold(r: Reducer, base: Json, updates: seq<Json>): Result<Json, string>
    decreases |updates|
  {
    if updates == [] then Ok(base)
    else match Reduce(r, base, updates[0])
      case Ok(v) => Fold(r, v, updates[1..])
      case Err(e) => Err(e)
  }

  function Concat(updates: seq<Json>): seq<Json> {
    if updates == [] then [] else UpdateItems(updates[0]) + Concat(updates[1..])
  }

  lemma {:induction false} AppendFold(base: Json, updates: seq<Json>)
    requires updates != []
    ensures Fold(AppendReducer, base, updates) == Ok(Arr(BaseItems(base) + Concat(updates)))
    decreases |updates|
  {
    var next := Append(base, updates[0]);
    if |updates| == 1 {
      assert updates[1..] == [];
      assert Concat(updates) == UpdateItems(updates[0]);
    } else {
      AppendFold(next, updates[1..]);
      calc {
        BaseItems(base) + Concat(updates);
        BaseItems(base) + (UpdateItems(updates[0]) + Concat(updates[1..]));
        BaseItems(base) + UpdateItems(updates[0]) + Concat(updates[1..]);
        BaseItems(next) + Concat(updates[1..]);
      }
    }
  }

  /** Every part of `u` is found in `r`. */
  ghost predicate Within(u: Json, r: Json)
    decreases u
  {
    if u.Obj? then r.Obj? && forall k :: k in u.fields ==> k in r.fields && Within(u.fields[k], r.fields[k])
    else r == u
  }

  lemma {:induction false} MergeKeeps(current: Json, update: Json)
    ensures Within(update, DeepMerge(current, update))
    decreases update
  {
    if update.Obj? {
      var merged := DeepMerge(current, update);
      forall k | k in update.fields ensures k in merged.fields && Within(update.fields[k], merged.fields[k]) {
        if current.Obj? {
          assert merged.fields[k] == MergedField(current, update, k);
          MergeKeeps(if k in current.fields then current.fields[k] else Null, update.fields[k]);
        } else {
          MergeKeeps(Null, update.fields[k]);
          NothingMerged(update.fields[k]);
        }
      }
    }
  }

  lemma NothingMerged(update: Json)
    ensures DeepMerge(Null, update) == update
  {
  }

  /** Folding `MergeReducer` never fails, and the last update is found in the result as a whole. */
  lemma {:induction false} MergeFold(base: Json, updates: seq<Json>)
    requires updates != []
    ensures var r := Fold(MergeReducer, base, updates); r.Ok? && Within(updates[|updates| - 1], r.value)
    decreases |updates|
  {
    hide Within, DeepMerge;
    MergeKeeps(base, updates[0]);
    if |updates| > 1 {
      MergeFold(DeepMerge(base, updates[0]), updates[1..]);
    } else {
      assert updates == [updates[0]] && updates[1..] == [];
    }
  }

  /** A reducer that is a function gets the stored value first and the new one second. */
  lemma FnReduces(f: (Json, Json) -> Result<Json, string>, reducers: map<string, Reducer>, key: string, current: Json,
                  update: Json)
    requires key in reducers && reducers[key] == FnReducer(f)
    ensures ApplyReducer(reducers, key, current, update) == f(current, update)
  {
  }

  /** Every update is a number with a nearest double. */
  predicate AllNumbers(float: real -> Option<real>, updates: seq<Json>) {
    forall i :: 0 <= i < |updates| ==> updates[i].Num? && float(updates[i].n).Some?
  }

  /** Folding `AddReducer` succeeds exactly on such numbers, over a number or nothing. */
  lemma {:induction false} AddFold(float: real -> Option<real>, base: Json, updates: seq<Json>)
    requires updates != []
    ensures Fold(AddReducer(float), base, updates).Ok? <==> (base.Num? || base.Null?) && AllNumbers(float, updates)
    decreases |updates|
  {
    var step := Add(float, base, updates[0]);
    if step.Ok? && |updates| > 1 {
      AddFold(float, step.value, updates[1..]);
      assert forall i :: 0 < i < |updates| ==> updates[i] == updates[1..][i - 1];
    } else if step.Ok? {
      assert updates == [updates[0]];
    }
  }

  // ---- Whole numbers ----------------------------------------------------------

  const EXACT: int := 0x20_0000_0000_0000

  predicate IsDouble(float: real -> Option<real>, i: int) {
    float(i as real) == Some(i as real)
  }

  /** Up to 2^53 every whole number is a double. */
  ghost predicate Precise(float: real -> Option<real>) {
    forall i :: -EXACT <= i <= EXACT ==> IsDouble(float, i)
  }

  predicate Whole(value: Json) {
    value.Num? && value.n == value.n.Floor as real
  }

  predicate AllWhole(updates: seq<Json>) {
    forall i :: 0 <= i < |updates| ==> Whole(updates[i])
  }

  function Magnitude(i: int): int {
    if i < 0 then -i else i
  }

  function Sum(updates: seq<Json>): int
    requires AllWhole(updates)
  {
    if updates == [] then 0 else updates[0].n.Floor + Sum(updates[1..])
  }

  /** The sum of the magnitudes. */
  function Size(updates: seq<Json>): int
    requires AllWhole(updates)
  {
    if updates == [] then 0 else Magnitude(updates[0].n.Floor) + Size(updates[1..])
  }

  function BaseNumber(base: Json): int {
    if base.Num? then base.n.Floor else 0
  }

  /** The counters whose sums cannot leave the doubles, in whatever order they are added. */
  predicate Countable(base: Json, updates: seq<Json>) {
    && (Whole(base) || base.Null?) && AllWhole(updates)
    && Magnitude(BaseNumber(base)) + Size(updates) <= EXACT
  }

  lemma AddExact(float: real -> Option<real>, base: Json, update: Json)
    requires Precise(float) && (Whole(base) || base.Null?) && Whole(update)
    requires Magnitude(BaseNumber(base)) + Magnitude(update.n.Floor) <= EXACT
    ensures Add(float, base, update) == Ok(Num((BaseNumber(base) + update.n.Floor) as real))
  {
    var a, b := BaseNumber(base), update.n.Floor;
    assert IsDouble(float, a) && IsDouble(float, b) && IsDouble(float, a + b);
    assert IsDouble(float, 0) && (a + b) as real == a as real + b as real;
  }

  lemma {:induction false} SizePositive(updates: seq<Json>)
    requires AllWhole(updates)
    ensures Size(updates) >= 0
  {
    if updates != [] {
      SizePositive(updates[1..]);
    }
  }

  /** Counters are added up exactly. */
  lemma {:induction false} AddFoldExact(float: real -> Option<real>, base: Json, updates: seq<Json>)
    requires Precise(float) && updates != [] && Countable(base, updates)
    ensures Fold(AddReducer(float), base, updates) == Ok(Num((BaseNumber(base) + Sum(updates)) as real))
    decreases |updates|
  {
    hide Precise;
    SizePositive(updates[1..]);
    AddExact(float, base, updates[0]);
    var next := Num((BaseNumber(base) + updates[0].n.Floor) as real);
    assert Whole(next) && BaseNumber(next) == BaseNumber(base) + updates[0].n.Floor;
    if |updates| == 1 {
      assert updates[1..] == [];
    } else {
      AddFoldExact(float, next, updates[1..]);
    }
  }

  lemma {:induction false} SumRemove(updates: seq<Json>, i: nat)
    requires AllWhole(updates) && i < |updates|
    ensures AllWhole(updates[..i] + updates[i + 1..])
    ensures Sum(updates) == updates[i].n.Floor + Sum(updates[..i] + updates[i + 1..])
    ensures Size(updates) == Magnitude(updates[i].n.Floor) + Size(updates[..i] + updates[i + 1..])
  {
    var rest := updates[..i] + updates[i + 1..];
    if i == 0 {
      assert rest == updates[1..];
    } else {
      SumRemove(updates[1..], i - 1);
      assert rest[0] == updates[0];
      assert rest[1..] == updates[1..][..i - 1] + updates[1..][i..];
    }
  }

  /** The order in which branches are folded is irrelevant to the two sums. */
  lemma {:induction false} SumPermutation(a: seq<Json>, b: seq<Json>)
    requires multiset(a) == multiset(b) && AllWhole(a)
    ensures AllWhole(b) && Sum(a) == Sum(b) && Size(a) == Size(b)
    decreases |a|
  {
    WholePermute(a, b);
    if a == [] {
      assert |b| == |multiset(b)| == 0;
    } else {
      var i := RemoveHead(a, b);
      SumRemove(b, i);
      SumPermutation(a[1..], b[..i] + b[i + 1..]);
    }
  }

  lemma WholePermute(a: seq<Json>, b: seq<Json>)
    requires multiset(a) == multiset(b) && AllWhole(a)
    ensures AllWhole(b)
  {
    forall i | 0 <= i < |b| ensures Whole(b[i]) {
      assert b[i] in multiset(b);
      assert b[i] in multiset(a);
    }
  }

  lemma RemoveHead<T>(a: seq<T>, b: seq<T>) returns (i: nat)
    requires a != [] && multiset(a) == multiset(b)
    ensures i < |b| && b[i] == a[0] && multiset(a[1..]) == multiset(b[..i] + b[i + 1..])
  {
    assert a[0] in multiset(a);
    assert a[0] in multiset(b);
    i :| 0 <= i < |b| && b[i] == a[0];
    assert b == b[..i] + [b[i]] + b[i + 1..];
    assert a == [a[0]] + a[1..];
    assert multiset(a[1..]) == multiset(a) - multiset{a[0]};
  }

  /** So the order in which branches are folded is irrelevant to counters. */
  lemma AddFoldPermutation(float: real -> Option<real>, base: Json, a: seq<Json>, b: seq<Json>)
    requires Precise(float) && Countable(base, a) && multiset(a) == multiset(b)
    ensures Fold(AddReducer(float), base, b) == Fold(AddReducer(float), base, a)
  {
    assert |multiset(a)| == |a| && |multiset(b)| == |b|;
    SumPermutation(a, b);
    if a != [] {
      AddFoldExact(float, base, a);
      AddFoldExact(float, base, b);
    }
  }

  lemma FoldThree(r: Reducer, base: Json, u: Json, v: Json, w: Json, x: Json, y: Json)
    requires Reduce(r, base, u) == Ok(x) && Reduce(r, x, v) == Ok(y)
    ensures Fold(r, base, [u, v, w]) == Reduce(r, y, w)
  {
    assert [u, v, w][1..] == [v, w] && [v, w][1..] == [w] && [w][1..] == [];
    assert Fold(r, y, [w]) == Reduce(r, y, w);
    assert Fold(r, x, [v, w]) == Fold(r, y, [w]);
  }

  /** Not to other numbers: 2^53 + 1 is no double, and rounds down. */
  lemma AddOrderMatters(float: real -> Option<real>)
    requires Precise(float) && float((EXACT + 1) as real) == Some(EXACT as real) && IsDouble(float, EXACT + 2)
    ensures var one, big := Num(1.0), Num(EXACT as real);
      && multiset([big, one, one]) == multiset([one, one, big])
      && Fold(AddReducer(float), Null, [big, one, one]) == Ok(Num(EXACT as real))
      && Fold(AddReducer(float), Null, [one, one, big]) == Ok(Num((EXACT + 2) as real))
  {
    var one, two, big := Num(1.0), Num(2.0), Num(EXACT as real);
    assert IsDouble(float, 1) && IsDouble(float, 2) && IsDouble(float, EXACT);
    assert Add(float, Null, big) == Ok(big) && Add(float, big, one) == Ok(big);
    assert Add(float, Null, one) == Ok(one) && Add(float, one, one) == Ok(two);
    FoldThree(AddReducer(float), Null, big, one, one, big, big);
    FoldThree(AddReducer(float), Null, one, one, big, one, two);
  }

  /** The doubles next to 2^53 are even: a whole number between 2^53 and 2^54 goes to an even one, ties to the
    * multiple of four. */
  function Nearest(x: real): Option<real> {
    var i := x.Floor;
    if x == i as real && EXACT < i < 2 * EXACT && i % 2 == 1
    then Some((if i % 4 == 1 then i - 1 else i + 1) as real)
    else Some(x)
  }

  lemma NearestMeetsIt()
    ensures Precise(Nearest) && Nearest((EXACT + 1) as real) == Some(EXACT as real) && IsDouble(Nearest, EXACT + 2)
  {
    assert (EXACT + 1) % 4 == 1;
    forall i | -EXACT <= i <= EXACT ensures IsDouble(Nearest, i) {
      assert (i as real).Floor == i;
    }
  }

  // ---- Laws of the deep merge -----------------------------------------------

  /** The update already holds every object path of the value it replaces. */
  predicate Subsumed(a: Json, c: Json)
    requires a.Obj? && c.Obj?
    decreases c
  {
    forall k :: k in a.fields ==>
      k in c.fields && (a.fields[k].Obj? && c.fields[k].Obj? ==> Subsumed(a.fields[k], c.fields[k]))
  }

  /** Merging leaves the update as it is exactly when the update covers the paths of the old value. */
  lemma {:induction false} MergeAbsorbs(a: Json, c: Json)
    requires a.Obj? && c.Obj?
    ensures DeepMerge(a, c) == c <==> Subsumed(a, c)
    decreases c
  {
    forall k | k in a.fields && k in c.fields && a.fields[k].Obj? && c.fields[k].Obj?
      ensures DeepMerge(a.fields[k], c.fields[k]) == c.fields[k] <==> Subsumed(a.fields[k], c.fields[k])
    {
      MergeAbsorbs(a.fields[k], c.fields[k]);
    }
    var m := DeepMerge(a, c).fields;
    if Subsumed(a, c) {
      assert m.Keys == c.fields.Keys;
      forall k | k in m ensures m[k] == c.fields[k] {
        assert m[k] == MergedField(a, c, k);
      }
    } else {
      var k :| k in a.fields &&
        !(k in c.fields && (a.fields[k].Obj? && c.fields[k].Obj? ==> Subsumed(a.fields[k], c.fields[k])));
      assert k in m;
      assert m[k] == MergedField(a, c, k);
    }
  }

  lemma {:induction false} SubsumedReflexive(a: Json)
    requires a.Obj?
    ensures Subsumed(a, a)
  {
    forall k | k in a.fields && a.fields[k].Obj? ensures Subsumed(a.fields[k], a.fields[k]) {
      SubsumedReflexive(a.fields[k]);
    }
  }

  lemma MergeIdempotent(a: Json)
    ensures DeepMerge(a, a) == a
  {
    if a.Obj? {
      SubsumedReflexive(a);
      MergeAbsorbs(a, a);
    }
  }

  lemma MergeIdentity(a: Json)
    requires a.Obj?
    ensures DeepMerge(Obj(map[]), a) == a && DeepMerge(a, Obj(map[])) == a
  {
    assert DeepMerge(Obj(map[]), a).fields == a.fields;
    assert DeepMerge(a, Obj(map[])).fields == a.fields;
  }

  /** No path holds an object, then a non-object, then an object that lost part of the first. */
  predicate MergeCompatible(a: Json, b: Json, c: Json)
    decreases c
  {
    if a.Obj? && !b.Obj? && c.Obj? then Subsumed(a, c)
    else if a.Obj? && b.Obj? && c.Obj? then
      forall k :: k in a.fields && k in b.fields && k in c.fields ==>
        MergeCompatible(a.fields[k], b.fields[k], c.fields[k])
    else true
  }

  /** Deep merge is associative on exactly the compatible triples. */
  lemma {:induction false} MergeAssociative(a: Json, b: Json, c: Json)
    ensures DeepMerge(DeepMerge(a, b), c) == DeepMerge(a, DeepMerge(b, c)) <==> MergeCompatible(a, b, c)
    decreases c
  {
    if a.Obj? && !b.Obj? && c.Obj? {
      MergeAbsorbs(a, c);
    } else if a.Obj? && b.Obj? && c.Obj? {
      var af, bf, cf := a.fields, b.fields, c.fields;
      var ab, bc := DeepMerge(a, b).fields, DeepMerge(b, c).fields;
      var left, right := DeepMerge(Obj(ab), c).fields, DeepMerge(a, Obj(bc)).fields;
      assert left.Keys == right.Keys == af.Keys + bf.Keys + cf.Keys;
      forall k | k in left
        ensures left[k] == right[k] <==>
          (k in af && k in bf && k in cf ==> MergeCompatible(af[k], bf[k], cf[k]))
      {
        assert left[k] == MergedField(Obj(ab), c, k) && right[k] == MergedField(a, Obj(bc), k);
        if k in af && k in bf && k in cf {
          assert ab[k] == MergedField(a, b, k) && bc[k] == MergedField(b, c, k);
          MergeAssociative(af[k], bf[k], cf[k]);
          MergedIsObj(af[k], bf[k]);
          MergedIsObj(bf[k], cf[k]);
        } else {
          assert k in ab ==> ab[k] == MergedField(a, b, k);
          assert k in bc ==> bc[k] == MergedField(b, c, k);
        }
      }
      if left == right {
      } else {
        var k :| k in left && left[k] != right[k];
      }
    }
  }

  lemma MergedIsObj(a: Json, b: Json)
    ensures DeepMerge(a, b).Obj? <==> b.Obj?
  {
  }

  /** Three values on which the order of merging shows: the middle one erases the first. */
  lemma MergeNotAssociative()
    ensures var a, b, c := Obj(map["x" := Null]), Null, Obj(map[]);
      DeepMerge(DeepMerge(a, b), c) != DeepMerge(a, DeepMerge(b, c))
  {
    var a, b, c := Obj(map["x" := Null]), Null, Obj(map[]);
    MergeAssociative(a, b, c);
    assert "x" in a.fields && "x" !in c.fields;
  }
}
