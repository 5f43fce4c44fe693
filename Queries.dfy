/** The read-only queries of the backend: point lookup of a profile, and the
    two scans that walk a map in ascending key order and keep what matches. */
module Queries {
  import opened MamaTypes
  import opened KeyOrder

  /** The values stored under `ks`, in that order, that satisfy `keep`
      (Rust `iter().filter(..).map(..).collect()`). */
  function Select<V(!new)>(m: map<u64, V>, ks: seq<u64>, keep: V -> bool): (r: seq<V>)
    requires forall i :: 0 <= i < |ks| ==> ks[i] in m
    ensures forall x :: x in r <==> keep(x) && exists i :: 0 <= i < |ks| && m[ks[i]] == x
    ensures |r| <= |ks|
  {
    if ks == [] then []
    else
      var v := m[ks[0]];
      var rest := Select(m, ks[1..], keep);
      var r := if keep(v) then [v] + rest else rest;
      assert forall x :: x in r <==> keep(x) && exists i :: 0 <= i < |ks| && m[ks[i]] == x by {
        forall x ensures x in r <==> keep(x) && exists i :: 0 <= i < |ks| && m[ks[i]] == x {
          if keep(x) && x != v {
            if i :| 0 <= i < |ks| && m[ks[i]] == x {
              assert i != 0;
              assert m[ks[1..][i - 1]] == x;
            }
          }
        }
      }
      r
  }

  /** Walking the keys in increasing order keeps the kept values in
      increasing id order when every value is stored under its id. */
  lemma {:induction false} SelectOrdered<V(!new)>(m: map<u64, V>, ks: seq<u64>, keep: V -> bool, id: V -> u64)
    requires forall i :: 0 <= i < |ks| ==> ks[i] in m
    requires KeyedById(m, id) && StrictlyIncreasing(ks)
    ensures IncreasingBy(Select(m, ks, keep), id)
  {
    if ks != [] {
      var v := m[ks[0]];
      var rest := Select(m, ks[1..], keep);
      SelectOrdered(m, ks[1..], keep, id);
      if keep(v) {
        var r := Select(m, ks, keep);
        assert r == [v] + rest;
        forall j | 0 < j < |r| ensures id(r[0]) < id(r[j]) {
          assert r[j] in rest;
          var i :| 0 <= i < |ks[1..]| && m[ks[1..][i]] == r[j];
          assert ks[0] < ks[1..][i];
        }
      }
    }
  }

  /** Keeping from a longer key list: the part for the extra key is appended. */
  lemma {:induction false} SelectAppend<V(!new)>(m: map<u64, V>, ks: seq<u64>, k: u64, keep: V -> bool)
    requires forall i :: 0 <= i < |ks| ==> ks[i] in m
    requires k in m
    ensures Select(m, ks + [k], keep) == Select(m, ks, keep) + (if keep(m[k]) then [m[k]] else [])
  {
    if ks != [] {
      assert (ks + [k])[1..] == ks[1..] + [k];
      SelectAppend(m, ks[1..], k, keep);
    }
  }

  /** Changing entries outside `ks` does not change what is kept from `ks`. */
  lemma {:induction false} SelectFrame<V(!new)>(m: map<u64, V>, m': map<u64, V>, ks: seq<u64>, keep: V -> bool)
    requires forall i :: 0 <= i < |ks| ==> ks[i] in m && ks[i] in m' && m[ks[i]] == m'[ks[i]]
    ensures Select(m, ks, keep) == Select(m', ks, keep)
  {
    if ks != [] {
      SelectFrame(m, m', ks[1..], keep);
    }
  }

  lemma SelectOrderedWhenKeyed<V(!new)>(m: map<u64, V>, ks: seq<u64>, keep: V -> bool, id: V -> u64)
    requires forall i :: 0 <= i < |ks| ==> ks[i] in m
    requires StrictlyIncreasing(ks)
    ensures KeyedById(m, id) ==> IncreasingBy(Select(m, ks, keep), id)
  {
    if KeyedById(m, id) {
      SelectOrdered(m, ks, keep, id);
    }
  }

  /** Walking all the keys of `m` keeps exactly the values that satisfy `keep`. */
  lemma SelectAll<V(!new)>(m: map<u64, V>, keep: V -> bool)
    ensures forall x :: x in Select(m, Ascending(m), keep) <==> x in m.Values && keep(x)
  {
  }

  /** Inserting under a key above all others adds at most one value, at the end. */
  lemma SelectInsertMax<V(!new)>(m: map<u64, V>, k: u64, v: V, keep: V -> bool)
    requires forall j :: j in m ==> j < k
    ensures Select(m[k := v], Ascending(m[k := v]), keep) == Select(m, Ascending(m), keep) + (if keep(v) then [v] else [])
  {
    var m' := m[k := v];
    var ks := Ascending(m);
    AscendingInsertMax(m, k, v);
    SelectAppend(m', ks, k, keep);
    SelectFrame(m, m', ks, keep);
  }

  /** `get_mother_profile`: the stored profile, or NotFound. */
  function GetMotherProfile(profiles: map<u64, MotherProfile>, id: u64): (r: Result<MotherProfile>)
    ensures r.Ok? <==> id in profiles
    ensures r.Ok? ==> r.value == profiles[id]
    ensures r.Err? ==> r.error == NotFound(MotherNotFound(id))
  {
    if id in profiles then Ok(profiles[id]) else Err(NotFound(MotherNotFound(id)))
  }

  function HasMother(motherId: u64): HealthRecord -> bool
  {
    (x: HealthRecord) => x.motherId == motherId
  }

  /** `get_mother_health_records`: every record of the mother, in ascending
      id order; NotFound when she has none. */
  function GetMotherHealthRecords(records: map<u64, HealthRecord>, motherId: u64): (r: Result<seq<HealthRecord>>)
    ensures r.Err? <==> forall k :: k in records ==> records[k].motherId != motherId
    ensures r.Err? ==> r.error == NotFound(NoRecordsFor(motherId))
    ensures r.Ok? ==> r.value != [] && forall x :: x in r.value <==> x in records.Values && x.motherId == motherId
    ensures r.Ok? && KeyedById(records, RecordId) ==> IncreasingBy(r.value, RecordId)
  {
    var ks := Ascending(records);
    var found := Select(records, ks, HasMother(motherId));
    SelectAll(records, HasMother(motherId));
    SelectOrderedWhenKeyed(records, ks, HasMother(motherId), RecordId);
    assert found == [] <==> forall k :: k in records ==> records[k].motherId != motherId by {
      if found != [] {
        assert found[0] in found;
        var k :| k in records && records[k] == found[0];
      } else {
        forall k | k in records ensures records[k].motherId != motherId {
          assert records[k] in records.Values;
          assert records[k] !in found;
        }
      }
    }
    if found == [] then Err(NotFound(NoRecordsFor(motherId))) else Ok(found)
  }

  function IsCritical(p: MotherProfile): bool
  {
    p.healthStatus == Critical
  }

  /** `get_high_risk_profiles`: every profile whose status is Critical, in
      ascending id order. */
  function GetHighRiskProfiles(profiles: map<u64, MotherProfile>): (r: seq<MotherProfile>)
    ensures forall p :: p in r <==> p in profiles.Values && p.healthStatus == Critical
    ensures KeyedById(profiles, ProfileId) ==> IncreasingBy(r, ProfileId)
  {
    var ks := Ascending(profiles);
    var found := Select(profiles, ks, IsCritical);
    SelectAll(profiles, IsCritical);
    SelectOrderedWhenKeyed(profiles, ks, IsCritical, ProfileId);
    found
  }

  /** The mother's records are exactly her records sorted by id: any list
      with those elements in increasing id order is the answer. */
  lemma HealthRecordsAreSortedMatches(records: map<u64, HealthRecord>, motherId: u64, expected: seq<HealthRecord>)
    requires KeyedById(records, RecordId)
    requires IncreasingBy(expected, RecordId)
    requires forall x :: x in expected <==> x in records.Values && x.motherId == motherId
    requires expected != []
    ensures GetMotherHealthRecords(records, motherId) == Ok(expected)
  {
    var r := GetMotherHealthRecords(records, motherId);
    assert expected[0] in records.Values;
    OrderedIsUnique(r.value, expected, RecordId);
  }

  /** The high-risk list is exactly the Critical profiles sorted by id. */
  lemma HighRiskAreSortedCriticals(profiles: map<u64, MotherProfile>, expected: seq<MotherProfile>)
    requires KeyedById(profiles, ProfileId)
    requires IncreasingBy(expected, ProfileId)
    requires forall p :: p in expected <==> p in profiles.Values && p.healthStatus == Critical
    ensures GetHighRiskProfiles(profiles) == expected
  {
    OrderedIsUnique(GetHighRiskProfiles(profiles), expected, ProfileId);
  }

  /** A record filed under an id above every existing one is appended to its
      mother's history and leaves every other mother's history as it was. */
  lemma NewRecordAppendsToHistory(records: map<u64, HealthRecord>, rec: HealthRecord, motherId: u64)
    requires forall k :: k in records ==> k < rec.id
    ensures var before := GetMotherHealthRecords(records, motherId);
            var after := GetMotherHealthRecords(records[rec.id := rec], motherId);
            if rec.motherId == motherId
            then after == Ok((if before.Ok? then before.value else []) + [rec])
            else after == before
  {
    var keep := HasMother(motherId);
    var records' := records[rec.id := rec];
    var found := Select(records, Ascending(records), keep);
    var found' := Select(records', Ascending(records'), keep);
    SelectInsertMax(records, rec.id, rec, keep);
    if rec.motherId == motherId {
      assert found' == found + [rec];
    } else {
      assert found' == found;
    }
    assert GetMotherHealthRecords(records, motherId) == if found == [] then Err(NotFound(NoRecordsFor(motherId))) else Ok(found);
    assert GetMotherHealthRecords(records', motherId) == if found' == [] then Err(NotFound(NoRecordsFor(motherId))) else Ok(found');
  }

  /** Creating a profile that is not Critical leaves the high-risk list as it was. */
  lemma NewProfileKeepsHighRisk(profiles: map<u64, MotherProfile>, p: MotherProfile)
    requires forall k :: k in profiles ==> k < p.id
    requires p.healthStatus != Critical
    ensures GetHighRiskProfiles(profiles[p.id := p]) == GetHighRiskProfiles(profiles)
  {
    SelectInsertMax(profiles, p.id, p, IsCritical);
  }
}
