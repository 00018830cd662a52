/**
 * Header bookkeeping: the request-header loop that fills a map (last duplicate
 * wins), the response-header loop that pushes every pair of a multimap, and
 * the `find(...)->second` access on the response's multimap.
 */
module Headers {
  import opened Base

  /** The map a run of `m[key] = value` assignments builds: a later pair overwrites an earlier one. */
  function Assigned(pairs: seq<Header>): map<string, string>
  {
    if pairs == [] then map[]
    else Assigned(pairs[..|pairs| - 1])[pairs[|pairs| - 1].0 := pairs[|pairs| - 1].1]
  }

  /** The keys of the map are exactly the keys of the pairs. */
  lemma {:induction false} AssignedKeys(pairs: seq<Header>)
    ensures Assigned(pairs).Keys == set i | 0 <= i < |pairs| :: pairs[i].0
  {
    if pairs != [] {
      var init := pairs[..|pairs| - 1];
      AssignedKeys(init);
      assert forall i :: 0 <= i < |init| ==> init[i] == pairs[i];
    }
  }

  /** A key maps to the value of its last pair. */
  lemma {:induction false} LastWins(pairs: seq<Header>, i: nat)
    requires i < |pairs|
    requires forall j :: i < j < |pairs| ==> pairs[j].0 != pairs[i].0
    ensures pairs[i].0 in Assigned(pairs) && Assigned(pairs)[pairs[i].0] == pairs[i].1
  {
    if i < |pairs| - 1 {
      var init := pairs[..|pairs| - 1];
      LastWins(init, i);
    }
  }

  /** The map a run of `m.insert(pair)` calls builds: a key already present keeps its value. */
  function Inserted(m: map<string, string>, pairs: seq<Header>): map<string, string>
  {
    if pairs == [] then m
    else
      var before := Inserted(m, pairs[..|pairs| - 1]);
      var (k, v) := pairs[|pairs| - 1];
      if k in before then before else before[k := v]
  }

  /** Insertion never changes or removes what the map held before. */
  lemma {:induction false} InsertedKeeps(m: map<string, string>, pairs: seq<Header>, k: string)
    requires k in m
    ensures k in Inserted(m, pairs) && Inserted(m, pairs)[k] == m[k]
  {
    if pairs != [] {
      InsertedKeeps(m, pairs[..|pairs| - 1], k);
    }
  }

  /** Every key the map held before keeps its value. */
  lemma InsertedKeepsAll(m: map<string, string>, pairs: seq<Header>)
    ensures m.Keys <= Inserted(m, pairs).Keys
    ensures forall k :: k in m ==> Inserted(m, pairs)[k] == m[k]
  {
    forall k | k in m
      ensures k in Inserted(m, pairs) && Inserted(m, pairs)[k] == m[k]
    {
      InsertedKeeps(m, pairs, k);
    }
  }

  /** A key the map did not hold comes from one of the pairs. */
  lemma {:induction false} InsertedFrom(m: map<string, string>, pairs: seq<Header>)
    ensures forall k :: k in Inserted(m, pairs) && k !in m ==> exists j :: 0 <= j < |pairs| && pairs[j].0 == k
  {
    if pairs != [] {
      var init := pairs[..|pairs| - 1];
      InsertedFrom(m, init);
      forall k | k in Inserted(m, pairs) && k !in m
        ensures exists j :: 0 <= j < |pairs| && pairs[j].0 == k
      {
        if k in Inserted(m, init) {
          var j :| 0 <= j < |init| && init[j].0 == k;
          assert pairs[j].0 == k;
        } else {
          assert pairs[|pairs| - 1].0 == k;
        }
      }
    }
  }

  /** A new key takes the value of its first pair. */
  lemma {:induction false} FirstWins(m: map<string, string>, pairs: seq<Header>, i: nat)
    requires i < |pairs| && pairs[i].0 !in m
    requires forall j :: 0 <= j < i ==> pairs[j].0 != pairs[i].0
    ensures pairs[i].0 in Inserted(m, pairs) && Inserted(m, pairs)[pairs[i].0] == pairs[i].1
  {
    var init := pairs[..|pairs| - 1];
    if i < |pairs| - 1 {
      FirstWins(m, init, i);
    } else {
      InsertedAbsent(m, init, pairs[i].0);
    }
  }

  /** A key that no pair carries keeps its status in the map. */
  lemma {:induction false} InsertedAbsent(m: map<string, string>, pairs: seq<Header>, k: string)
    requires forall j :: 0 <= j < |pairs| ==> pairs[j].0 != k
    ensures (k in Inserted(m, pairs)) == (k in m)
    ensures k in m ==> Inserted(m, pairs)[k] == m[k]
  {
    if pairs != [] {
      InsertedAbsent(m, pairs[..|pairs| - 1], k);
    }
  }

  /** The elements of a list of list parts, in order. */
  function Flatten(parts: seq<seq<Header>>): seq<Header>
  {
    if parts == [] then [] else Flatten(parts[..|parts| - 1]) + parts[|parts| - 1]
  }

  /**
   * `get_input_headers` (lines 606-623): walks the parts of the header list and
   * assigns each pair into the map. Only the first part of an nginx list can
   * be empty, which is what lets the loop read element 0 right after moving to
   * the next part.
   */
  method InputHeaders(parts: seq<seq<Header>>) returns (m: map<string, string>)
    requires |parts| >= 1
    requires forall j :: 0 < j < |parts| ==> parts[j] != []
    ensures m == Assigned(Flatten(parts))
  {
    var part, i := 0, 0;
    m := map[];
    while true
      invariant 0 <= part < |parts| && 0 <= i <= |parts[part]|
      invariant m == Assigned(Flatten(parts[..part]) + parts[part][..i])
      decreases |parts| - part, |parts[part]| - i
    {
      if i >= |parts[part]| {
        if part == |parts| - 1 {
          break;
        }
        assert parts[..part + 1][..part] == parts[..part];
        assert parts[part][..i] == parts[part];
        part, i := part + 1, 0;
      }
      ghost var done := Flatten(parts[..part]) + parts[part][..i];
      assert done + [parts[part][i]] == Flatten(parts[..part]) + parts[part][..i + 1];
      assert (done + [parts[part][i]])[..|done|] == done;
      m := m[parts[part][i].0 := parts[part][i].1];
      i := i + 1;
    }
    assert parts[..part] + [parts[part]] == parts;
    assert parts[part][..i] == parts[part];
  }

  /** `set_output_headers` (lines 625-637): pushes every pair onto the outgoing list, duplicates included. */
  method OutputHeaders(list: seq<Header>, headers: seq<Header>) returns (out: seq<Header>)
    ensures out == list + headers
    ensures multiset(out) == multiset(list) + multiset(headers)
  {
    out := list;
    for i := 0 to |headers|
      invariant out == list + headers[..i]
    {
      assert headers[..i + 1] == headers[..i] + [headers[i]];
      out := out + [headers[i]];
    }
    assert headers[..|headers|] == headers;
  }

  /** Where `find(key)` lands in the multimap (taken as the first pair with that key). */
  function FindFirst(hs: seq<Header>, key: string): (r: Option<nat>)
    ensures r.None? <==> forall i :: 0 <= i < |hs| ==> hs[i].0 != key
    ensures r.Some? ==> r.value < |hs| && hs[r.value].0 == key
    ensures r.Some? ==> forall i :: 0 <= i < r.value ==> hs[i].0 != key
  {
    if hs == [] then None
    else if hs[0].0 == key then Some(0)
    else
      var r := FindFirst(hs[1..], key);
      if r.None? then None else Some(r.value + 1)
  }

  /** `find(key)->second` read; `None` where the code would dereference `end()`. */
  function ValueOf(hs: seq<Header>, key: string): (v: Option<string>)
    ensures v.None? <==> forall i :: 0 <= i < |hs| ==> hs[i].0 != key
    ensures v.Some? ==> exists i :: 0 <= i < |hs| && hs[i] == (key, v.value)
  {
    var r := FindFirst(hs, key);
    if r.None? then None else Some(hs[r.value].1)
  }

  /** `find(key)->second = v`; `None` where the code would dereference `end()`. */
  function SetValue(hs: seq<Header>, key: string, v: string): (r: Option<seq<Header>>)
    ensures r.None? <==> forall i :: 0 <= i < |hs| ==> hs[i].0 != key
    ensures r.Some? ==> |r.value| == |hs| && ValueOf(r.value, key) == Some(v)
    ensures r.Some? ==> forall i :: 0 <= i < |hs| && i != FindFirst(hs, key).value ==> r.value[i] == hs[i]
  {
    var p := FindFirst(hs, key);
    if p.None? then None
    else
      var r := hs[p.value := (key, v)];
      assert FindFirst(r, key) == p by {
        FindFirstStable(hs, key, p.value, v);
      }
      Some(r)
  }

  lemma {:induction false} FindFirstStable(hs: seq<Header>, key: string, p: nat, v: string)
    requires FindFirst(hs, key) == Some(p)
    ensures FindFirst(hs[p := (key, v)], key) == Some(p)
  {
    var r := hs[p := (key, v)];
    var q := FindFirst(r, key);
    assert r[p].0 == key;
  }
}
