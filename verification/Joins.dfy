/** Joining the artifacts of parallel branches: duplicates, contradictions and dissent
  * (agent-graph/src/join.rs). */
module Joins {
  import opened Values

  type Artifact = (string, Json)

  /** How a JSON value prints, and which strings are blank, is left open. */
  datatype Text = Text(show: Json -> string, blank: string -> bool)

  /** The strategies modelled here certify in these two ways only. */
  datatype Certification = Pass | Quarantine

  datatype Note = PairsExposed(count: nat) | StrictQuarantine | DissentPreserved(count: nat) | Quarantined(key: string)

  datatype Outcome = Outcome(
    certification: Certification, value: seq<Json>, contradictions: seq<Clash>, minority: seq<Json>, notes: seq<Note>)

  datatype Clash = Clash(left: string, right: string, scope: Json, time: Json, leftClaim: string, rightClaim: string)

  datatype Strategy =
    | DedupeByIdentity(identity: Option<string>)
    | ContradictionMatrix(scope: string, claim: string, time: string, strict: bool)
    | MinorityReport(dissent: string)
    | ProofCarrying(required: seq<string>)

  datatype JoinError = NoInputs | NoIdentity(key: string)

  // ---- Looking into artifacts ---------------------------------------------------------------

  /** `split('.')`. */
  function Split(path: string): (r: seq<string>)
    ensures r != []
  {
    if path == "" then [""]
    else
      var rest := Split(path[1..]);
      if path[0] == '.' then [""] + rest else [[path[0]] + rest[0]] + rest[1..]
  }

  function Descend(value: Json, segments: seq<string>): Option<Json> {
    if segments == [] then Some(value)
    else if value.Obj? && segments[0] in value.fields then Descend(value.fields[segments[0]], segments[1..])
    else None
  }

  function PathGet(value: Json, path: string): Option<Json> {
    Descend(value, Split(path))
  }

  /** A string stands for itself; every other value for the way it prints. */
  function ClaimOf(t: Text, value: Json, path: string): Option<string> {
    match PathGet(value, path)
    case Some(Str(s)) => Some(s)
    case Some(other) => Some(t.show(other))
    case None => None
  }

  function IdentityOf(t: Text, artifact: Artifact, path: Option<string>): Result<string, JoinError> {
    match path
    case None => Ok(artifact.0)
    case Some(p) =>
      match PathGet(artifact.1, p)
      case Some(Str(s)) => if t.blank(s) then Err(NoIdentity(artifact.0)) else Ok(s)
      case _ => Err(NoIdentity(artifact.0))
  }

  // ---- Order-preserving selection ------------------------------------------------------------

  ghost predicate Increasing(positions: seq<nat>) {
    forall k, l :: 0 <= k < l < |positions| ==> positions[k] < positions[l]
  }

  /** `out` is the subsequence of `all` at exactly the positions where `keep` holds. */
  ghost predicate Selects<T>(all: seq<T>, keep: nat -> bool, out: seq<T>, positions: seq<nat>) {
    && Increasing(positions) && |out| == |positions|
    && (forall k :: 0 <= k < |out| ==> positions[k] < |all| && out[k] == all[positions[k]])
    && (forall i: nat :: i in positions <==> i < |all| && keep(i))
  }

  lemma SelectNext<T>(all: seq<T>, next: T, keep: nat -> bool, out: seq<T>, positions: seq<nat>)
    requires Selects(all, keep, out, positions)
    ensures if keep(|all|) then Selects(all + [next], keep, out + [next], positions + [|all|])
            else Selects(all + [next], keep, out, positions)
  {
    forall k | 0 <= k < |positions| ensures positions[k] < |all| {
      assert positions[k] in positions;
    }
  }

  /** If two selections begin alike, the next position of one is no later than that of the other. */
  lemma NoLater<T>(all: seq<T>, keep: nat -> bool, a: seq<T>, p: seq<nat>, b: seq<T>, q: seq<nat>, k: nat)
    requires Selects(all, keep, a, p) && Selects(all, keep, b, q) && k < |p|
    requires forall m :: 0 <= m < k ==> m < |q| && p[m] == q[m]
    ensures k < |q| && q[k] <= p[k]
  {
    assert p[k] in p;
    assert p[k] in q;
    var l :| 0 <= l < |q| && q[l] == p[k];
    assert l >= k;
  }

  /** A selection is determined by what is kept. */
  lemma {:induction false} SelectionUnique<T>(all: seq<T>, keep: nat -> bool, a: seq<T>, p: seq<nat>, b: seq<T>,
                                              q: seq<nat>, k: nat)
    requires Selects(all, keep, a, p) && Selects(all, keep, b, q) && k < |p|
    ensures k < |q| && a[k] == b[k]
    ensures forall m :: 0 <= m <= k ==> m < |q| && p[m] == q[m]
  {
    if k > 0 {
      SelectionUnique(all, keep, a, p, b, q, k - 1);
    }
    NoLater(all, keep, a, p, b, q, k);
    NoLater(all, keep, b, q, a, p, k);
  }

  lemma AllSelected<T>(all: seq<T>, keep: nat -> bool) returns (positions: seq<nat>)
    requires forall i: nat :: keep(i) <==> i < |all|
    ensures Selects(all, keep, all, positions) && |positions| == |all|
  {
    positions := seq(|all|, i requires 0 <= i < |all| => i as nat);
    forall i: nat ensures i in positions <==> i < |all| {
      if i < |all| {
        assert positions[i] == i;
      }
    }
  }

  lemma SelectedLength<T>(all: seq<T>, keep: nat -> bool, out: seq<T>, positions: seq<nat>)
    requires Selects(all, keep, out, positions)
    ensures |out| == |positions|
  {
  }

  // ---- Duplicates ----------------------------------------------------------------------------

  ghost predicate AllIdentified(t: Text, inputs: seq<Artifact>, path: Option<string>) {
    forall i :: 0 <= i < |inputs| ==> IdentityOf(t, inputs[i], path).Ok?
  }

  /** No earlier artifact has the same identity. */
  function FirstOf(t: Text, inputs: seq<Artifact>, path: Option<string>): nat -> bool {
    (i: nat) => i < |inputs| && forall j :: 0 <= j < i ==> IdentityOf(t, inputs[j], path) != IdentityOf(t, inputs[i], path)
  }

  /** `normalize` of the deduplication keeps exactly the first artifact of every identity, in order. */
  method Dedupe(t: Text, inputs: seq<Artifact>, path: Option<string>)
    returns (r: Result<seq<Artifact>, JoinError>, ghost positions: seq<nat>)
    ensures r.Ok? <==> AllIdentified(t, inputs, path)
    ensures r.Ok? ==> Selects(inputs, FirstOf(t, inputs, path), r.value, positions)
  {
    var seen: set<string> := {};
    var out: seq<Artifact> := [];
    positions := [];
    var keep := FirstOf(t, inputs, path);
    for i := 0 to |inputs|
      invariant AllIdentified(t, inputs[..i], path)
      invariant forall id :: id in seen <==> exists j :: 0 <= j < i && IdentityOf(t, inputs[j], path) == Ok(id)
      invariant Selects(inputs[..i], keep, out, positions)
    {
      var identity := IdentityOf(t, inputs[i], path);
      assert inputs[..i + 1] == inputs[..i] + [inputs[i]];
      SelectNext(inputs[..i], inputs[i], keep, out, positions);
      if identity.Err? {
        return Err(identity.error), positions;
      }
      assert keep(i) <==> identity.value !in seen by {
        assert forall j :: 0 <= j < i ==> IdentityOf(t, inputs[j], path).Ok? by {
          assert forall j :: 0 <= j < i ==> inputs[..i][j] == inputs[j];
        }
      }
      if identity.value !in seen {
        seen := seen + {identity.value};
        out := out + [inputs[i]];
        positions := positions + [i];
      }
    }
    assert inputs[..|inputs|] == inputs;
    r := Ok(out);
  }

  /** Every identity survives once, and a second deduplication would keep everything. */
  lemma DedupeKeepsIdentities(t: Text, inputs: seq<Artifact>, path: Option<string>, out: seq<Artifact>,
                              positions: seq<nat>)
    requires Selects(inputs, FirstOf(t, inputs, path), out, positions)
    ensures forall k, l :: 0 <= k < l < |out| ==> IdentityOf(t, out[k], path) != IdentityOf(t, out[l], path)
    ensures forall i :: 0 <= i < |inputs| ==>
      exists k :: 0 <= k < |out| && IdentityOf(t, out[k], path) == IdentityOf(t, inputs[i], path)
    ensures forall k: nat :: FirstOf(t, out, path)(k) <==> k < |out|
  {
    forall k, l | 0 <= k < l < |out| ensures IdentityOf(t, out[k], path) != IdentityOf(t, out[l], path) {
      assert positions[l] in positions;
    }
    forall i | 0 <= i < |inputs|
      ensures exists k :: 0 <= k < |out| && IdentityOf(t, out[k], path) == IdentityOf(t, inputs[i], path)
    {
      var j := EarliestAlike(t, inputs, path, i);
      var k :| 0 <= k < |positions| && positions[k] == j;
      assert out[k] == inputs[j];
    }
  }

  lemma {:induction false} EarliestAlike(t: Text, inputs: seq<Artifact>, path: Option<string>, i: nat) returns (j: nat)
    requires i < |inputs|
    ensures j <= i && IdentityOf(t, inputs[j], path) == IdentityOf(t, inputs[i], path) && FirstOf(t, inputs, path)(j)
  {
    j := i;
    if h :| 0 <= h < i && IdentityOf(t, inputs[h], path) == IdentityOf(t, inputs[i], path) {
      j := EarliestAlike(t, inputs, path, h);
    }
  }

  /** Deduplicating twice is deduplicating once. */
  lemma DedupeIdempotent(t: Text, inputs: seq<Artifact>, path: Option<string>, out: seq<Artifact>,
                         positions: seq<nat>, again: seq<Artifact>, q: seq<nat>)
    requires Selects(inputs, FirstOf(t, inputs, path), out, positions) && Selects(out, FirstOf(t, out, path), again, q)
    ensures again == out
  {
    DedupeKeepsIdentities(t, inputs, path, out, positions);
    var all := AllSelected(out, FirstOf(t, out, path));
    SelectedLength(out, FirstOf(t, out, path), again, q);
    hide FirstOf, Selects;
    forall k | 0 <= k < |out| ensures k < |again| && again[k] == out[k] {
      SelectionUnique(out, FirstOf(t, out, path), out, all, again, q, k);
    }
    if |again| > |out| {
      SelectionUnique(out, FirstOf(t, out, path), again, q, out, all, |out|);
    }
    if |again| < |out| {
      SelectionUnique(out, FirstOf(t, out, path), out, all, again, q, |again|);
    }
  }

  // ---- Contradictions ------------------------------------------------------------------------

  /** Both artifacts have scope, time and claim; scopes and times agree, and the claims do not. */
  predicate Contradict(t: Text, s: Strategy, a: Artifact, b: Artifact)
    requires s.ContradictionMatrix?
  {
    && PathGet(a.1, s.scope).Some? && PathGet(a.1, s.scope) == PathGet(b.1, s.scope)
    && PathGet(a.1, s.time).Some? && PathGet(a.1, s.time) == PathGet(b.1, s.time)
    && ClaimOf(t, a.1, s.claim).Some? && ClaimOf(t, b.1, s.claim).Some?
    && ClaimOf(t, a.1, s.claim) != ClaimOf(t, b.1, s.claim)
  }

  function Report(t: Text, s: Strategy, a: Artifact, b: Artifact): Clash
    requires s.ContradictionMatrix? && Contradict(t, s, a, b)
  {
    Clash(a.0, b.0, PathGet(a.1, s.scope).value, PathGet(a.1, s.time).value,
          ClaimOf(t, a.1, s.claim).value, ClaimOf(t, b.1, s.claim).value)
  }

  /** Lexicographic order of pairs of positions. */
  predicate Before(p: (nat, nat), q: (nat, nat)) {
    p.0 < q.0 || (p.0 == q.0 && p.1 < q.1)
  }

  ghost predicate Sorted(pairs: seq<(nat, nat)>) {
    forall k, l :: 0 <= k < l < |pairs| ==> Before(pairs[k], pairs[l])
  }

  /** The reports are those of the listed pairs. */
  ghost predicate ReportsOf(t: Text, s: Strategy, artifacts: seq<Artifact>, pairs: seq<(nat, nat)>, out: seq<Clash>)
    requires s.ContradictionMatrix?
  {
    && |out| == |pairs|
    && forall k :: 0 <= k < |pairs| ==>
         && pairs[k].0 < pairs[k].1 < |artifacts| && Contradict(t, s, artifacts[pairs[k].0], artifacts[pairs[k].1])
         && out[k] == Report(t, s, artifacts[pairs[k].0], artifacts[pairs[k].1])
  }

  /** The reports of all contradictory pairs, the left artifact first, in lexicographic order. */
  ghost predicate IsMatrix(t: Text, s: Strategy, artifacts: seq<Artifact>, out: seq<Clash>)
    requires s.ContradictionMatrix?
  {
    exists pairs ::
      && Sorted(pairs) && ReportsOf(t, s, artifacts, pairs, out)
      && AllListed(t, s, artifacts, pairs)
  }

  ghost predicate AllListed(t: Text, s: Strategy, artifacts: seq<Artifact>, pairs: seq<(nat, nat)>)
    requires s.ContradictionMatrix?
  {
    forall i: nat, j: nat :: i < j < |artifacts| && Contradict(t, s, artifacts[i], artifacts[j]) ==> (i, j) in pairs
  }

  /** One report for every contradictory pair with the left one first, in lexicographic order. */
  method Contradictions(t: Text, s: Strategy, artifacts: seq<Artifact>)
    returns (out: seq<Clash>, ghost pairs: seq<(nat, nat)>)
    requires s.ContradictionMatrix?
    ensures IsMatrix(t, s, artifacts, out)
    ensures Sorted(pairs) && ReportsOf(t, s, artifacts, pairs, out) && AllListed(t, s, artifacts, pairs)
  {
    hide Contradict, Report;
    out, pairs := [], [];
    for left := 0 to |artifacts|
      invariant Sorted(pairs) && ReportsOf(t, s, artifacts, pairs, out)
      invariant forall k :: 0 <= k < |pairs| ==> pairs[k].0 < left
      invariant forall i: nat, j: nat ::
        i < left && i < j < |artifacts| && Contradict(t, s, artifacts[i], artifacts[j]) ==> (i, j) in pairs
    {
      for right := left + 1 to |artifacts|
        invariant Sorted(pairs) && ReportsOf(t, s, artifacts, pairs, out)
        invariant forall k :: 0 <= k < |pairs| ==> Before(pairs[k], (left, right))
        invariant forall i: nat, j: nat ::
          Before((i, j), (left, right)) && i < j < |artifacts| && Contradict(t, s, artifacts[i], artifacts[j]) ==>
            (i, j) in pairs
      {
        var found := Compare(t, s, artifacts[left], artifacts[right]);
        if found.Some? {
          out := out + [found.value];
          pairs := pairs + [(left, right)];
        }
      }
    }
  }

  /** One pair, with the source's early exits. */
  method Compare(t: Text, s: Strategy, a: Artifact, b: Artifact) returns (r: Option<Clash>)
    requires s.ContradictionMatrix?
    ensures r == if Contradict(t, s, a, b) then Some(Report(t, s, a, b)) else None
  {
    var lScope, rScope := PathGet(a.1, s.scope), PathGet(b.1, s.scope);
    if lScope.None? || rScope.None? {
      return None;
    }
    var lTime, rTime := PathGet(a.1, s.time), PathGet(b.1, s.time);
    if lTime.None? || rTime.None? {
      return None;
    }
    if lScope.value != rScope.value || lTime.value != rTime.value {
      return None;
    }
    var lClaim, rClaim := ClaimOf(t, a.1, s.claim), ClaimOf(t, b.1, s.claim);
    if lClaim.None? || rClaim.None? || lClaim.value == rClaim.value {
      return None;
    }
    r := Some(Clash(a.0, b.0, lScope.value, lTime.value, lClaim.value, rClaim.value));
  }

  // ---- Claims that print alike ---------------------------------------------------------------

  /** Different values that are not strings print differently. */
  ghost predicate PrintsApart(t: Text) {
    forall x: Json, y: Json :: !x.Str? && !y.Str? && t.show(x) == t.show(y) ==> x == y
  }

  /** One of the two is a string, and the other prints like it. */
  predicate LooksLike(t: Text, x: Json, y: Json) {
    (x.Str? && !y.Str? && x.s == t.show(y)) || (y.Str? && !x.Str? && y.s == t.show(x))
  }

  predicate SameContext(s: Strategy, a: Json, b: Json)
    requires s.ContradictionMatrix?
  {
    && PathGet(a, s.scope).Some? && PathGet(a, s.scope) == PathGet(b, s.scope)
    && PathGet(a, s.time).Some? && PathGet(a, s.time) == PathGet(b, s.time)
  }

  /** Different claims of one scope and time contradict each other exactly if neither is a string that looks
    * like the other. */
  lemma UnnoticedClaims(t: Text, s: Strategy, a: Artifact, b: Artifact)
    requires PrintsApart(t) && s.ContradictionMatrix? && SameContext(s, a.1, b.1)
    ensures Contradict(t, s, a, b) <==>
      var x, y := PathGet(a.1, s.claim), PathGet(b.1, s.claim);
      x.Some? && y.Some? && x != y && !LooksLike(t, x.value, y.value)
  {
    hide PathGet;
    var x, y := PathGet(a.1, s.claim), PathGet(b.1, s.claim);
    if x.Some? && y.Some? && !x.value.Str? && !y.value.Str? {
      assert t.show(x.value) == t.show(y.value) ==> x == y;
    }
  }

  /** Two artifacts of one scope and time make claims that are neither equal nor look alike. */
  predicate Differ(t: Text, s: Strategy, a: Json, b: Json)
    requires s.ContradictionMatrix?
  {
    var x, y := PathGet(a, s.claim), PathGet(b, s.claim);
    SameContext(s, a, b) && x.Some? && y.Some? && x != y && !LooksLike(t, x.value, y.value)
  }

  /** So the matrix is empty exactly if no two artifacts make such claims. */
  lemma EmptyMatrix(t: Text, s: Strategy, artifacts: seq<Artifact>, out: seq<Clash>)
    requires PrintsApart(t) && s.ContradictionMatrix? && IsMatrix(t, s, artifacts, out)
    ensures out == [] <==> forall i, j :: 0 <= i < j < |artifacts| ==> !Differ(t, s, artifacts[i].1, artifacts[j].1)
  {
    hide PrintsApart, PathGet, LooksLike;
    var pairs: seq<(nat, nat)> :| Sorted(pairs) && ReportsOf(t, s, artifacts, pairs, out) && AllListed(t, s, artifacts, pairs);
    forall i: nat, j: nat | i < j < |artifacts|
      ensures Contradict(t, s, artifacts[i], artifacts[j]) <==> Differ(t, s, artifacts[i].1, artifacts[j].1)
    {
      if SameContext(s, artifacts[i].1, artifacts[j].1) {
        UnnoticedClaims(t, s, artifacts[i], artifacts[j]);
      }
    }
    hide Contradict, Differ;
    if out != [] {
      assert Contradict(t, s, artifacts[pairs[0].0], artifacts[pairs[0].1]);
    }
  }

  function Claiming(claim: Json): Json {
    Obj(map["scope" := Str("s"), "time" := Str("t"), "claim" := claim])
  }

  lemma {:induction false} NoDots(path: string)
    requires '.' !in path
    ensures Split(path) == [path]
  {
    if path != "" {
      NoDots(path[1..]);
      assert [path[0]] + path[1..] == path;
    }
  }

  lemma OwnField(value: Json, path: string)
    requires value.Obj? && '.' !in path && path in value.fields
    ensures PathGet(value, path) == Some(value.fields[path])
  {
    NoDots(path);
    hide Split;
    assert [path][1..] == [];
    assert Descend(value, [path]) == Descend(value.fields[path], []);
  }

  lemma ClaimingFields(claim: Json)
    ensures PathGet(Claiming(claim), "scope") == Some(Str("s")) && PathGet(Claiming(claim), "time") == Some(Str("t"))
    ensures PathGet(Claiming(claim), "claim") == Some(claim)
  {
    hide PathGet;
    OwnField(Claiming(claim), "scope");
    OwnField(Claiming(claim), "time");
    OwnField(Claiming(claim), "claim");
  }

  /** The matrix of an artifact that claims the string `true` and one that claims the boolean is empty. */
  lemma StringTrueUnnoticed(t: Text, strict: bool, out: seq<Clash>)
    requires t.show(Bool(true)) == "true"
    requires IsMatrix(t, ContradictionMatrix("scope", "claim", "time", strict),
                      [("a", Claiming(Str("true"))), ("b", Claiming(Bool(true)))], out)
    ensures PathGet(Claiming(Str("true")), "claim") != PathGet(Claiming(Bool(true)), "claim")
    ensures out == []
  {
    ClaimingFields(Str("true"));
    ClaimingFields(Bool(true));
    hide PathGet, Claiming;
    var s := ContradictionMatrix("scope", "claim", "time", strict);
    var artifacts := [("a", Claiming(Str("true"))), ("b", Claiming(Bool(true)))];
    assert !Contradict(t, s, artifacts[0], artifacts[1]);
    var pairs :| Sorted(pairs) && ReportsOf(t, s, artifacts, pairs, out) && AllListed(t, s, artifacts, pairs);
    assert pairs == [] || pairs[0] == (0, 1);
  }

  // ---- Dissent -------------------------------------------------------------------------------

  predicate Dissents(a: Artifact, path: string) {
    PathGet(a.1, path) == Some(Bool(true))
  }

  function Payloads(inputs: seq<Artifact>): (r: seq<Json>)
    ensures |r| == |inputs| && forall i :: 0 <= i < |r| ==> r[i] == inputs[i].1
  {
    seq(|inputs|, i requires 0 <= i < |inputs| => inputs[i].1)
  }

  function Dissenting(inputs: seq<Artifact>, path: string, dissent: bool): nat -> bool {
    (i: nat) => i < |inputs| && Dissents(inputs[i], path) == dissent
  }

  /** A flag that is absent or not a boolean counts as false. */
  method IsDissent(a: Artifact, path: string) returns (dissent: bool)
    ensures dissent == Dissents(a, path)
  {
    var flag := PathGet(a.1, path);
    dissent := flag.Some? && flag.value.Bool? && flag.value.b;
  }

  ghost predicate SplitSoFar(all: seq<Json>, stays: nat -> bool, leaves: nat -> bool,
                             majority: seq<Json>, p: seq<nat>, minority: seq<Json>, q: seq<nat>) {
    && Selects(all, stays, majority, p) && Selects(all, leaves, minority, q)
    && multiset(majority) + multiset(minority) == multiset(all)
  }

  lemma SplitNext(all: seq<Json>, next: Json, stays: nat -> bool, leaves: nat -> bool,
                  majority: seq<Json>, p: seq<nat>, minority: seq<Json>, q: seq<nat>)
    requires SplitSoFar(all, stays, leaves, majority, p, minority, q) && (stays(|all|) <==> !leaves(|all|))
    ensures if leaves(|all|) then SplitSoFar(all + [next], stays, leaves, majority, p, minority + [next], q + [|all|])
            else SplitSoFar(all + [next], stays, leaves, majority + [next], p + [|all|], minority, q)
  {
    SelectNext(all, next, stays, majority, p);
    SelectNext(all, next, leaves, minority, q);
    hide Selects;
    assert multiset(all + [next]) == multiset(all) + multiset{next};
  }

  /** Majority and minority are the artifacts without and with dissent, both in the order they came. */
  method SplitMinority(inputs: seq<Artifact>, path: string)
    returns (majority: seq<Json>, minority: seq<Json>, ghost p: seq<nat>, ghost q: seq<nat>)
    ensures Selects(Payloads(inputs), Dissenting(inputs, path, false), majority, p)
    ensures Selects(Payloads(inputs), Dissenting(inputs, path, true), minority, q)
    ensures multiset(majority) + multiset(minority) == multiset(Payloads(inputs))
  {
    majority, minority, p, q := [], [], [], [];
    ghost var all := Payloads(inputs);
    ghost var stays, leaves := Dissenting(inputs, path, false), Dissenting(inputs, path, true);
    assert SplitSoFar(all[..0], stays, leaves, majority, p, minority, q);
    hide Selects, SplitSoFar, PathGet, Payloads, Dissents;
    for i := 0 to |inputs|
      invariant SplitSoFar(all[..i], stays, leaves, majority, p, minority, q)
    {
      assert all[..i + 1] == all[..i] + [all[i]];
      assert stays(i) <==> !leaves(i);
      SplitNext(all[..i], all[i], stays, leaves, majority, p, minority, q);
      var dissent := IsDissent(inputs[i], path);
      assert leaves(i) == dissent && stays(i) == !dissent;
      assert all[i] == inputs[i].1;
      if dissent {
        minority, q := minority + [inputs[i].1], q + [i];
      } else {
        majority, p := majority + [inputs[i].1], p + [i];
      }
    }
    assert all[..|inputs|] == all;
    SplitDone(all, stays, leaves, majority, p, minority, q);
  }

  lemma SplitDone(all: seq<Json>, stays: nat -> bool, leaves: nat -> bool,
                  majority: seq<Json>, p: seq<nat>, minority: seq<Json>, q: seq<nat>)
    requires SplitSoFar(all, stays, leaves, majority, p, minority, q)
    ensures Selects(all, stays, majority, p) && Selects(all, leaves, minority, q)
    ensures multiset(majority) + multiset(minority) == multiset(all)
  {
  }

  // ---- Proofs --------------------------------------------------------------------------------

  function FieldOf(value: Json, key: string): Option<Json> {
    if value.Obj? && key in value.fields then Some(value.fields[key]) else None
  }

  /** The field holds a string that is not empty. */
  predicate HasText(value: Json, key: string) {
    match FieldOf(value, key)
    case Some(Str(s)) => s != ""
    case _ => false
  }

  predicate Witnessed(entry: Json) {
    HasText(entry, "witness_id") && HasText(entry, "digest")
  }

  predicate Passed(entry: Json) {
    FieldOf(entry, "status") == Some(Str("passed"))
  }

  /** The field is absent, or a list that is not empty and all of whose entries are good. */
  predicate AllEntries(value: Json, key: string, good: Json -> bool) {
    match FieldOf(value, key)
    case None => true
    case Some(Arr(entries)) => entries != [] && forall i :: 0 <= i < |entries| ==> good(entries[i])
    case Some(_) => false
  }

  predicate Proven(required: seq<string>, value: Json) {
    && (forall i :: 0 <= i < |required| ==> PathGet(value, required[i]).Some?)
    && AllEntries(value, "evidence", Witnessed) && AllEntries(value, "checks", Passed)
  }

  method CheckEntries(value: Json, key: string, good: Json -> bool) returns (ok: bool)
    ensures ok == AllEntries(value, key, good)
  {
    var field := FieldOf(value, key);
    if field.None? {
      return true;
    }
    if !field.value.Arr? || field.value.items == [] {
      return false;
    }
    var entries := field.value.items;
    for i := 0 to |entries|
      invariant forall j :: 0 <= j < i ==> good(entries[j])
    {
      if !good(entries[i]) {
        return false;
      }
    }
    ok := true;
  }

  method CheckProof(required: seq<string>, value: Json) returns (ok: bool)
    ensures ok == Proven(required, value)
  {
    hide PathGet, AllEntries;
    var present := true;
    for i := 0 to |required|
      invariant present <==> forall j :: 0 <= j < i ==> PathGet(value, required[j]).Some?
    {
      present := present && PathGet(value, required[i]).Some?;
    }
    var evidence := CheckEntries(value, "evidence", Witnessed);
    var checks := CheckEntries(value, "checks", Passed);
    ok := present && evidence && checks;
  }

  function Quarantines(inputs: seq<Artifact>): (r: seq<Note>)
    ensures |r| == |inputs| && forall i :: 0 <= i < |r| ==> r[i] == Quarantined(inputs[i].0)
  {
    seq(|inputs|, i requires 0 <= i < |inputs| => Quarantined(inputs[i].0))
  }

  function ProvenAt(inputs: seq<Artifact>, required: seq<string>, proven: bool): nat -> bool {
    (i: nat) => i < |inputs| && Proven(required, inputs[i].1) == proven
  }

  /** The artifacts with a proof, and a note for every other, both in the order they came. */
  method SplitProven(inputs: seq<Artifact>, required: seq<string>)
    returns (valid: seq<Json>, notes: seq<Note>, ghost p: seq<nat>, ghost q: seq<nat>)
    ensures Selects(Payloads(inputs), ProvenAt(inputs, required, true), valid, p)
    ensures Selects(Quarantines(inputs), ProvenAt(inputs, required, false), notes, q)
  {
    valid, notes, p, q := [], [], [], [];
    ghost var all, quarantines := Payloads(inputs), Quarantines(inputs);
    ghost var stays, leaves := ProvenAt(inputs, required, true), ProvenAt(inputs, required, false);
    for i := 0 to |inputs|
      invariant Selects(all[..i], stays, valid, p) && Selects(quarantines[..i], leaves, notes, q)
    {
      hide Selects, Proven, Payloads, Quarantines;
      assert all[..i + 1] == all[..i] + [all[i]] && quarantines[..i + 1] == quarantines[..i] + [quarantines[i]];
      SelectNext(all[..i], all[i], stays, valid, p);
      SelectNext(quarantines[..i], quarantines[i], leaves, notes, q);
      var ok := CheckProof(required, inputs[i].1);
      assert stays(i) == ok && leaves(i) == !ok;
      if ok {
        valid, p := valid + [inputs[i].1], p + [i];
      } else {
        notes, q := notes + [Quarantined(inputs[i].0)], q + [i];
      }
    }
    assert all[..|inputs|] == all && quarantines[..|inputs|] == quarantines;
  }

  // ---- The pipeline --------------------------------------------------------------------------

  /** What a strict or lenient matrix notes. */
  function MatrixNotes(found: seq<Clash>, strict: bool): seq<Note> {
    if found == [] then [] else [PairsExposed(|found|)] + if strict then [StrictQuarantine] else []
  }

  /** Validate, normalise, expose contradictions, adjudicate and certify. An empty input or an artifact
    * without identity is an error; nothing else is. No artifact is lost, a strict matrix passes exactly
    * if nothing contradicts, and a proof-carrying join exactly if every artifact has its proof. */
  method Join(t: Text, s: Strategy, inputs: seq<Artifact>) returns (r: Result<Outcome, JoinError>)
    ensures r.Err? <==> inputs == [] || (s.DedupeByIdentity? && !AllIdentified(t, inputs, s.identity))
    ensures r.Ok? && s.ContradictionMatrix? ==>
      && r.value.value == Payloads(inputs) && r.value.minority == [] && IsMatrix(t, s, inputs, r.value.contradictions)
      && (r.value.contradictions != [] <==>
            exists i, j :: 0 <= i < j < |inputs| && Contradict(t, s, inputs[i], inputs[j]))
      && r.value.certification == (if s.strict && r.value.contradictions != [] then Quarantine else Pass)
      && r.value.notes == MatrixNotes(r.value.contradictions, s.strict)
    ensures r.Ok? && s.MinorityReport? ==>
      && multiset(r.value.value) + multiset(r.value.minority) == multiset(Payloads(inputs))
      && r.value.contradictions == [] && r.value.certification == Pass
      && r.value.notes == (if r.value.minority == [] then [] else [DissentPreserved(|r.value.minority|)])
      && (r.value.minority == [] <==> forall i :: 0 <= i < |inputs| ==> !Dissents(inputs[i], s.dissent))
    ensures r.Ok? && s.DedupeByIdentity? ==>
      && r.value.contradictions == [] && r.value.minority == [] && r.value.certification == Pass && r.value.notes == []
      && exists out, positions ::
           Selects(inputs, FirstOf(t, inputs, s.identity), out, positions) && r.value.value == Payloads(out)
    ensures r.Ok? && s.ProofCarrying? ==>
      && r.value.contradictions == [] && r.value.minority == []
      && (exists p :: Selects(Payloads(inputs), ProvenAt(inputs, s.required, true), r.value.value, p))
      && (exists q :: Selects(Quarantines(inputs), ProvenAt(inputs, s.required, false), r.value.notes, q))
      && (r.value.certification == Pass <==> forall i :: 0 <= i < |inputs| ==> Proven(s.required, inputs[i].1))
  {
    hide PathGet, ClaimOf, IdentityOf, Proven;
    if inputs == [] {
      return Err(NoInputs);
    }
    match s
    case DedupeByIdentity(path) =>
      var normal, positions := Dedupe(t, inputs, path);
      if normal.Err? {
        return Err(normal.error);
      }
      assert Selects(inputs, FirstOf(t, inputs, path), normal.value, positions);
      r := Ok(Outcome(Pass, Payloads(normal.value), [], [], []));
    case ContradictionMatrix(_, _, _, strict) =>
      var found, pairs := Contradictions(t, s, inputs);
      if pairs != [] {
        assert Contradict(t, s, inputs[pairs[0].0], inputs[pairs[0].1]);
      }
      var outcome := Outcome(Pass, Payloads(inputs), found, [], if found == [] then [] else [PairsExposed(|found|)]);
      if strict && found != [] {
        outcome := outcome.(certification := Quarantine, notes := outcome.notes + [StrictQuarantine]);
      }
      r := Ok(outcome);
    case MinorityReport(path) =>
      var majority, minority, p, q := SplitMinority(inputs, path);
      NoneSelected(inputs, path, minority, q);
      r := Ok(Outcome(Pass, majority, [], minority, if minority == [] then [] else [DissentPreserved(|minority|)]));
    case ProofCarrying(required) =>
      var valid, notes, p, q := SplitProven(inputs, required);
      NoneQuarantined(inputs, required, notes, q);
      assert Selects(Payloads(inputs), ProvenAt(inputs, required, true), valid, p);
      assert Selects(Quarantines(inputs), ProvenAt(inputs, required, false), notes, q);
      r := Ok(Outcome(if notes == [] then Pass else Quarantine, valid, [], [], notes));
  }

  lemma NoneQuarantined(inputs: seq<Artifact>, required: seq<string>, notes: seq<Note>, q: seq<nat>)
    requires Selects(Quarantines(inputs), ProvenAt(inputs, required, false), notes, q)
    ensures notes == [] <==> forall i :: 0 <= i < |inputs| ==> Proven(required, inputs[i].1)
  {
    hide Proven;
    if notes != [] {
      assert q[0] in q;
    } else {
      forall i | 0 <= i < |inputs| ensures Proven(required, inputs[i].1) {
        assert i in q <==> ProvenAt(inputs, required, false)(i);
      }
    }
  }

  lemma NoneSelected(inputs: seq<Artifact>, path: string, minority: seq<Json>, q: seq<nat>)
    requires Selects(Payloads(inputs), Dissenting(inputs, path, true), minority, q)
    ensures minority == [] <==> forall i :: 0 <= i < |inputs| ==> !Dissents(inputs[i], path)
  {
    hide Dissents;
    if minority != [] {
      assert q[0] in q;
    } else {
      forall i | 0 <= i < |inputs| ensures !Dissents(inputs[i], path) {
        assert i in q <==> Dissenting(inputs, path, true)(i);
      }
    }
  }
}
