/** The canister's persistent state and its two update calls. The id counter
    cell and the two stable B-tree maps become fields of one `Store` object;
    every call takes the host time `now` as a parameter. */
module Canister {
  import opened MamaTypes
  import opened Classifier
  import opened Queries
  import opened KeyOrder

  /** Largest `u64`; the counter must stay below it for `counter + 1` to fit. */
  const U64_MAX: nat := U64_LIMIT - 1

  /** The store invariant over the raw state: every entry sits under its own
      id, below the counter; the two maps share no key; every record belongs
      to a mother created before it. */
  ghost predicate Consistent(counter: u64, profiles: map<u64, MotherProfile>, records: map<u64, HealthRecord>)
  {
    && (forall k :: k in profiles ==> k < counter && profiles[k].id == k)
    && (forall k :: k in records ==>
          && k < counter && records[k].id == k && k !in profiles
          && records[k].motherId in profiles && records[k].motherId < k)
  }

  /** A consistent store keeps every entry under its own id, so both scans
      return their results in ascending id order. */
  lemma ConsistentIsKeyedById(counter: u64, profiles: map<u64, MotherProfile>, records: map<u64, HealthRecord>)
    requires Consistent(counter, profiles, records)
    ensures KeyedById(profiles, ProfileId) && KeyedById(records, RecordId)
    ensures forall m :: GetMotherHealthRecords(records, m).Ok? ==> IncreasingBy(GetMotherHealthRecords(records, m).value, RecordId)
    ensures IncreasingBy(GetHighRiskProfiles(profiles), ProfileId)
  {
  }

  /** Filing a record under an unused id below the counter, for a mother
      created before it, keeps the store consistent. */
  lemma FileRecordKeepsConsistent(counter: u64, profiles: map<u64, MotherProfile>, records: map<u64, HealthRecord>, rec: HealthRecord)
    requires Consistent(counter, profiles, records)
    requires rec.id < counter && rec.id !in profiles && rec.id !in records
    requires rec.motherId in profiles && rec.motherId < rec.id
    ensures Consistent(counter, profiles, records[rec.id := rec])
  {
  }

  class Store {
    /** The `ID_COUNTER` cell: the next id to hand out. */
    var idCounter: u64
    /** `PROFILE_STORAGE`. */
    var profiles: map<u64, MotherProfile>
    /** `HEALTH_RECORD_STORAGE`. */
    var records: map<u64, HealthRecord>

    ghost predicate Valid()
      reads this
    {
      Consistent(idCounter, profiles, records)
    }

    /** A fresh store: the counter cell starts at 0 and both maps are empty. */
    constructor ()
      ensures Valid()
      ensures idCounter == 0 && profiles == map[] && records == map[]
    {
      idCounter := 0;
      profiles := map[];
      records := map[];
    }

    /** Read the counter and store it plus one; the id is the value read,
        which is what the cell's `set` hands back. */
    method NextId() returns (id: u64)
      requires Valid()
      requires idCounter < U64_MAX
      modifies this
      ensures Valid()
      ensures id == old(idCounter) && idCounter == old(idCounter) + 1
      ensures id !in profiles && id !in records
      ensures profiles == old(profiles) && records == old(records)
    {
      id := idCounter;
      idCounter := idCounter + 1;
    }

    /** `create_mother_profile`: reject an age outside 13..=65 before touching
        the counter; otherwise file a Normal profile under a fresh id. */
    method CreateMotherProfile(payload: MotherProfilePayload, now: u64) returns (r: Result<MotherProfile>)
      requires Valid()
      requires !(payload.age < 13 || payload.age > 65) ==> idCounter < U64_MAX
      modifies this
      ensures Valid()
      ensures r.Err? <==> payload.age < 13 || payload.age > 65
      ensures r.Err? ==> r.error == InvalidInput("Invalid age range")
      ensures r.Err? ==> idCounter == old(idCounter) && profiles == old(profiles) && records == old(records)
      ensures r.Ok? ==>
        var p := r.value;
        && p.id == old(idCounter) && idCounter == old(idCounter) + 1
        && p.id !in old(profiles) && p.id !in old(records)
        && profiles == old(profiles)[p.id := p]
        && records == old(records)
        && p.name == payload.name && p.age == payload.age && p.bloodType == payload.bloodType
        && p.expectedDeliveryDate == payload.expectedDeliveryDate
        && p.medicalHistory == payload.medicalHistory && p.emergencyContact == payload.emergencyContact
        && p.stage == CalculatePregnancyStage(payload.expectedDeliveryDate, now)
        && p.healthStatus == Normal && p.createdAt == now && p.lastCheckup == now
      ensures r.Ok? ==> GetMotherProfile(profiles, r.value.id) == Ok(r.value)
      ensures r.Ok? ==> GetHighRiskProfiles(profiles) == GetHighRiskProfiles(old(profiles))
    {
      if payload.age < 13 || payload.age > 65 {
        return Err(InvalidInput("Invalid age range"));
      }
      var id := NextId();
      var stage := CalculatePregnancyStage(payload.expectedDeliveryDate, now);
      var profile := MotherProfile(
        id, payload.name, payload.age, payload.bloodType, payload.expectedDeliveryDate,
        stage, Normal, now, now, payload.medicalHistory, payload.emergencyContact);
      NewProfileKeepsHighRisk(profiles, profile);
      profiles := profiles[id := profile];
      r := Ok(profile);
    }

    /** `update_mother_status`: get, modify and re-insert the mother's profile,
        or NotFound when there is none. */
    method UpdateMotherStatus(motherId: u64, status: HealthStatus, now: u64) returns (r: Result<()>)
      requires Valid()
      modifies this
      ensures Valid()
      ensures r.Err? <==> motherId !in old(profiles)
      ensures r.Err? ==> r.error == NotFound(MotherNotFound(motherId)) && profiles == old(profiles)
      ensures r.Ok? ==>
        profiles == old(profiles)[motherId := old(profiles)[motherId].(healthStatus := status, lastCheckup := now)]
      ensures idCounter == old(idCounter) && records == old(records)
    {
      if motherId !in profiles {
        return Err(NotFound(MotherNotFound(motherId)));
      }
      var profile := profiles[motherId];
      profile := profile.(healthStatus := status, lastCheckup := now);
      profiles := profiles[motherId := profile];
      r := Ok(());
    }

    /** `add_health_record`: NotFound for an unknown mother, with nothing
        changed; otherwise classify the checkup, allocate an id, update the
        mother's status and last checkup, and file the record. */
    method AddHealthRecord(payload: HealthRecordPayload, now: u64) returns (r: Result<HealthRecord>)
      requires Valid()
      requires payload.motherId in profiles ==> idCounter < U64_MAX
      modifies this
      ensures Valid()
      ensures r.Err? <==> payload.motherId !in old(profiles)
      ensures r.Err? ==> r.error == NotFound(MotherNotFound(payload.motherId))
      ensures r.Err? ==> idCounter == old(idCounter) && profiles == old(profiles) && records == old(records)
      ensures r.Ok? ==>
        var rec := r.value;
        var status := AnalyzeHealthStatus(payload);
        && rec.id == old(idCounter) && idCounter == old(idCounter) + 1
        && rec.id !in old(profiles) && rec.id !in old(records)
        && rec == HealthRecord(rec.id, payload.motherId, now, payload.bloodPressure, payload.weight,
                               payload.symptoms, payload.notes, payload.nextAppointment, status)
        && records == old(records)[rec.id := rec]
        && profiles == old(profiles)[payload.motherId :=
             old(profiles)[payload.motherId].(healthStatus := status, lastCheckup := now)]
      ensures r.Ok? ==>
        var before := GetMotherHealthRecords(old(records), payload.motherId);
        GetMotherHealthRecords(records, payload.motherId) == Ok((if before.Ok? then before.value else []) + [r.value])
      ensures r.Ok? ==>
        (profiles[payload.motherId] in GetHighRiskProfiles(profiles) <==> r.value.healthStatus == Critical)
    {
      if payload.motherId !in profiles {
        return Err(NotFound(MotherNotFound(payload.motherId)));
      }
      var id := NextId();
      var status := AnalyzeHealthStatus(payload);
      var record := HealthRecord(
        id, payload.motherId, now, payload.bloodPressure, payload.weight,
        payload.symptoms, payload.notes, payload.nextAppointment, status);
      var updated := UpdateMotherStatus(payload.motherId, status, now);
      // The mother was found above, so the update's NotFound branch cannot occur.
      assert updated.Ok?;
      NewRecordAppendsToHistory(records, record, payload.motherId);
      FileRecordKeepsConsistent(idCounter, profiles, records, record);
      records := records[id := record];
      r := Ok(record);
    }
  }
}
