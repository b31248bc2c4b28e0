/** What the paths, identities and proofs of artifacts mean, said with their fields
  * (agent-graph/src/join.rs). */
module JoinRules {
  import opened Values
  import opened Joins

  // ---- Paths --------------------------------------------------------------------------------

  /** The segments with dots between them. */
  function Dotted(segments: seq<string>): string
    requires segments != []
  {
    if |segments| == 1 then segments[0] else segments[0] + "." + Dotted(segments[1..])
  }

  /** A path is its segments with dots between them, and no segment has a dot. */
  lemma {:induction false} SplitAtDots(path: string)
    ensures Dotted(Split(path)) == path
    ensures forall i :: 0 <= i < |Split(path)| ==> '.' !in Split(path)[i]
  {
    if path != "" {
      var rest := Split(path[1..]);
      SplitAtDots(path[1..]);
      assert path == [path[0]] + path[1..];
      if path[0] == '.' {
        assert Split(path)[1..] == rest;
        assert [] + "." + Dotted(rest) == path;
      } else {
        assert Split(path)[1..] == rest[1..] && Split(path)[0] == [path[0]] + rest[0];
        if |rest| > 1 {
          assert [path[0]] + rest[0] + "." + Dotted(rest[1..]) == [path[0]] + (rest[0] + "." + Dotted(rest[1..]));
        }
      }
    }
  }

  /** From field to field, from the value to the one it ends at. */
  ghost predicate Descent(value: Json, segments: seq<string>, steps: seq<Json>, end: Json) {
    && |steps| == |segments| + 1 && steps[0] == value && steps[|segments|] == end
    && forall i :: 0 <= i < |segments| ==>
         steps[i].Obj? && segments[i] in steps[i].fields && steps[i].fields[segments[i]] == steps[i + 1]
  }

  ghost predicate Trail(value: Json, path: string, steps: seq<Json>, end: Json) {
    Descent(value, Split(path), steps, end)
  }

  /** A path leads to a value exactly if its segments do, field by field. */
  lemma PathLeads(value: Json, path: string, end: Json)
    ensures PathGet(value, path) == Some(end) <==> exists steps :: Trail(value, path, steps, end)
  {
    DescentMeans(value, Split(path), end);
    if PathGet(value, path) == Some(end) {
      var steps :| Descent(value, Split(path), steps, end);
      assert Trail(value, path, steps, end);
    }
  }

  lemma DescentMeans(value: Json, segments: seq<string>, end: Json)
    ensures Descend(value, segments) == Some(end) <==> exists steps :: Descent(value, segments, steps, end)
  {
    if Descend(value, segments) == Some(end) {
      var steps := DescendSteps(value, segments);
      assert Descent(value, segments, steps, end);
      assert exists some :: Descent(value, segments, some, end);
    } else {
      forall steps ensures !Descent(value, segments, steps, end) {
        if Descent(value, segments, steps, end) {
          StepsDescend(value, segments, steps, end);
        }
      }
    }
  }

  lemma {:induction false} DescendSteps(value: Json, segments: seq<string>) returns (steps: seq<Json>)
    requires Descend(value, segments).Some?
    ensures Descent(value, segments, steps, Descend(value, segments).value)
    decreases |segments|
  {
    steps := [value];
    if segments != [] {
      var rest := DescendSteps(value.fields[segments[0]], segments[1..]);
      steps := [value] + rest;
      forall i | 0 <= i < |segments|
        ensures steps[i].Obj? && segments[i] in steps[i].fields && steps[i].fields[segments[i]] == steps[i + 1]
      {
        if i > 0 {
          assert segments[1..][i - 1] == segments[i] && rest[i - 1 + 1] == steps[i + 1] && rest[i - 1] == steps[i];
        }
      }
    }
  }

  lemma {:induction false} StepsDescend(value: Json, segments: seq<string>, steps: seq<Json>, end: Json)
    requires Descent(value, segments, steps, end)
    ensures Descend(value, segments) == Some(end)
    decreases |segments|
  {
    if segments != [] {
      assert steps[0].fields[segments[0]] == steps[0 + 1];
      forall i | 0 <= i < |segments[1..]|
        ensures steps[1..][i].Obj? && segments[1..][i] in steps[1..][i].fields
        ensures steps[1..][i].fields[segments[1..][i]] == steps[1..][i + 1]
      {
        assert steps[i + 1].fields[segments[i + 1]] == steps[i + 1 + 1];
      }
      StepsDescend(steps[1], segments[1..], steps[1..], end);
    }
  }

  // ---- Identities and claims ------------------------------------------------------------------

  /** Without a path an artifact is known by its key; with one by the text found there, which must not be blank. */
  lemma IdentityMeans(t: Text, artifact: Artifact, path: Option<string>, identity: string)
    ensures IdentityOf(t, artifact, path) == Ok(identity) <==>
      if path.None? then identity == artifact.0
      else PathGet(artifact.1, path.value) == Some(Str(identity)) && !t.blank(identity)
  {
  }

  /** A claim is the text found at its path, or the way another value prints. */
  lemma ClaimMeans(t: Text, value: Json, path: string, claim: string)
    ensures ClaimOf(t, value, path) == Some(claim) <==>
      PathGet(value, path) == Some(Str(claim)) ||
      exists other: Json :: PathGet(value, path) == Some(other) && !other.Str? && t.show(other) == claim
  {
  }

  // ---- Proofs ---------------------------------------------------------------------------------

  /** The object has a text that is not empty under that name. */
  predicate Names(entry: Json, key: string) {
    entry.Obj? && key in entry.fields && entry.fields[key].Str? && entry.fields[key].s != ""
  }

  /** An artifact is proven if every required path leads somewhere, its evidence, if it has any, is a list
    * of at least one entry with a witness and a digest each, and its checks, if it has any, a list of at
    * least one passed check. */
  lemma ProvenMeans(required: seq<string>, value: Json)
    ensures Proven(required, value) <==>
      && (forall path :: path in required ==> PathGet(value, path).Some?)
      && (value.Obj? && "evidence" in value.fields ==>
            var evidence := value.fields["evidence"];
            && evidence.Arr? && |evidence.items| >= 1
            && forall entry :: entry in evidence.items ==> Names(entry, "witness_id") && Names(entry, "digest"))
      && (value.Obj? && "checks" in value.fields ==>
            var checks := value.fields["checks"];
            && checks.Arr? && |checks.items| >= 1
            && forall entry :: entry in checks.items ==>
                 entry.Obj? && "status" in entry.fields && entry.fields["status"] == Str("passed"))
  {
    hide PathGet;
    EvidenceMeans(value);
    ChecksMean(value);
    hide AllEntries, Names;
  }

  lemma EvidenceMeans(value: Json)
    ensures AllEntries(value, "evidence", Witnessed) <==>
      (value.Obj? && "evidence" in value.fields ==>
        var evidence := value.fields["evidence"];
        && evidence.Arr? && |evidence.items| >= 1
        && forall entry :: entry in evidence.items ==> Names(entry, "witness_id") && Names(entry, "digest"))
  {
    forall entry: Json ensures Witnessed(entry) <==> Names(entry, "witness_id") && Names(entry, "digest") {
    }
    hide Witnessed, Names;
  }

  lemma ChecksMean(value: Json)
    ensures AllEntries(value, "checks", Passed) <==>
      (value.Obj? && "checks" in value.fields ==>
        var checks := value.fields["checks"];
        && checks.Arr? && |checks.items| >= 1
        && forall entry :: entry in checks.items ==>
             entry.Obj? && "status" in entry.fields && entry.fields["status"] == Str("passed"))
  {
  }
}
