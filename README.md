# mama-pack backend, modelled in Dafny

The mama-pack backend is a small Internet Computer canister. It keeps mother
profiles and health checkup records. Its state is one shared id counter and two
ordered maps: profiles by id and health records by id. It offers two update
calls and three queries:

- `create_mother_profile` checks the age, allocates an id, derives the
  pregnancy stage from the expected delivery date and stores a `Normal`
  profile.
- `add_health_record` checks that the mother exists, allocates an id,
  classifies the checkup from its symptoms, updates the mother's status and
  last checkup, and stores the record.
- `get_mother_profile` is a point lookup.
- `get_mother_health_records` and `get_high_risk_profiles` scan a map in
  ascending key order.

Files:

- `Types.dfy` (module `MamaTypes`): the records, payloads, `Error` and
  `Result`, the `u64`/`u8` ranges, and the decimal rendering used in error
  messages.
- `Classifier.dfy` (module `Classifier`): `calculate_pregnancy_stage`,
  case-sensitive substring search, and `analyze_health_status`.
- `KeyOrder.dfy` (module `KeyOrder`): the ascending key order in which the
  stable map iterates, and the fact that a key-ordered sequence is fixed by
  its elements.
- `Queries.dfy` (module `Queries`): the three queries as functions over the
  maps, plus lemmas on what the queries return before and after an insert.
- `Store.dfy` (module `Canister`): class `Store`, which holds the counter and
  the two maps, with the update calls as methods that take the host time
  `now` as a parameter.

Behaviour worth knowing, as the code does it:

- The stage comes from whole weeks to the delivery date, counted as 0 once
  the date has passed: 0..=12 weeks gives ThirdTrimester, 13..=26 gives
  SecondTrimester, 27..=40 gives FirstTrimester, and anything later gives
  PostPartum. A delivery date at or before `now` is therefore
  ThirdTrimester, not PostPartum.
- The health status looks only at the symptom list. It ignores blood
  pressure and weight. It is Critical when some symptom contains `severe`,
  `emergency` or `critical`, matched case-sensitively. Otherwise it is
  NeedsAttention when any symptom is listed, and Normal otherwise.
- The id returned is the counter value before the increment. The counter
  cell's `set` hands back the previous value, so ids run 0, 1, 2, … and are
  shared by profiles and records. The model relies on this behaviour of the
  `ic_stable_structures` `Cell`, whose source is not part of this model.
- `add_health_record` updates the mother's profile first and stores the
  record afterwards.

## Model

| member | source | states |
|---|---|---|
| `MamaTypes.Decimal` | src/mama-pack-backend/src/lib.rs:219 | the id in an error message is rendered as a canonical numeral: one or more decimal digits, with no leading zero unless the numeral is "0" |
| `MamaTypes.MotherNotFound` | src/mama-pack-backend/src/lib.rs:219 | the message is "Mother with id=", then a canonical numeral, then " not found"; the numeral reads back as the id (the same message is built at lib.rs:283 and lib.rs:296) |
| `MamaTypes.NoRecordsFor` | src/mama-pack-backend/src/lib.rs:316 | the message is "No health records found for mother_id=" followed by a canonical numeral that reads back as the mother id |
| `MamaTypes.DecimalRoundTrip` | src/mama-pack-backend/src/lib.rs:219 | reading the rendered digits back as a decimal number gives the id that was formatted |
| `MamaTypes.DecimalOfDigitsValue` | src/mama-pack-backend/src/lib.rs:219 | every canonical numeral is the rendering of the number it denotes; with the round trip above, the message's numeral is exactly the one Rust prints for the id |
| `Classifier.CalculatePregnancyStage` | src/mama-pack-backend/src/lib.rs:158-174 | each stage holds exactly on its interval of the delivery date relative to `now`, with boundaries at 13, 27 and 41 weeks; a delivery date at or before `now` gives ThirdTrimester |
| `Classifier.Contains` | src/mama-pack-backend/src/lib.rs:257-259 | the search succeeds exactly when the word occurs as a contiguous run somewhere in the string |
| `Classifier.IsCriticalSymptom` | src/mama-pack-backend/src/lib.rs:256-260 | a symptom is critical exactly when it contains one of the three critical words |
| `Classifier.AnyCriticalSymptom` | src/mama-pack-backend/src/lib.rs:256-260 | the result is true exactly when some symptom in the list is critical |
| `Classifier.AnalyzeHealthStatus` | src/mama-pack-backend/src/lib.rs:255-269 | Critical exactly when some symptom names a critical word; NeedsAttention exactly when there are symptoms and none does; Normal exactly when there are no symptoms |
| `Classifier.StatusDependsOnlyOnSymptoms` | src/mama-pack-backend/src/lib.rs:255-269 | two checkups with the same symptoms get the same status, whatever their blood pressure, weight, notes or appointment |
| `KeyOrder.Ascending` | src/mama-pack-backend/src/lib.rs:305-311 | map iteration yields every key of the map exactly once, in strictly increasing order |
| `KeyOrder.OrderedIsUnique` | src/mama-pack-backend/src/lib.rs:325-334 | two sequences with strictly increasing ids and the same elements are equal, so "the matches in id order" names a single answer |
| `Queries.Select` | src/mama-pack-backend/src/lib.rs:306-311 | the filter keeps exactly the values, stored under the visited keys, that pass the test |
| `Queries.SelectOrdered` | src/mama-pack-backend/src/lib.rs:306-311 | when the keys are visited in increasing order and each value carries its own key as id, the kept values come out in increasing id order |
| `Queries.GetMotherProfile` | src/mama-pack-backend/src/lib.rs:291-300 | returns the stored profile exactly when the id is a key, and otherwise NotFound with the message for that id |
| `Queries.GetMotherHealthRecords` | src/mama-pack-backend/src/lib.rs:304-321 | NotFound exactly when no stored record has that mother id; otherwise a non-empty list holding exactly her records, in increasing id order when records are stored under their ids |
| `Queries.GetHighRiskProfiles` | src/mama-pack-backend/src/lib.rs:325-334 | holds exactly the stored profiles whose status is Critical, in increasing id order when profiles are stored under their ids |
| `Queries.HealthRecordsAreSortedMatches` | src/mama-pack-backend/src/lib.rs:304-321 | any non-empty list of exactly the mother's records in increasing id order is what the query returns |
| `Queries.HighRiskAreSortedCriticals` | src/mama-pack-backend/src/lib.rs:325-334 | any list of exactly the Critical profiles in increasing id order is what the query returns |
| `Queries.SelectInsertMax` | src/mama-pack-backend/src/lib.rs:305-311 | inserting under a key above every existing key adds that value, if it passes the filter, at the end of the filtered list, and changes nothing else |
| `Queries.NewRecordAppendsToHistory` | src/mama-pack-backend/src/lib.rs:250 | filing a record under a fresh, largest id appends it to its mother's history and leaves every other mother's history unchanged |
| `Queries.NewProfileKeepsHighRisk` | src/mama-pack-backend/src/lib.rs:208 | filing a non-Critical profile under a fresh, largest id leaves the high-risk list unchanged |
| `Canister.ConsistentIsKeyedById` | src/mama-pack-backend/src/lib.rs:140-146 | in any consistent store, both maps keep each entry under its own id, so the mother's records and the high-risk list come back in ascending id order |
| `Canister.FileRecordKeepsConsistent` | src/mama-pack-backend/src/lib.rs:250 | inserting a record under an unused id below the counter, for a mother created earlier, keeps the store invariant |
| `Canister.Store.constructor` | src/mama-pack-backend/src/lib.rs:135-146 | the counter starts at 0 and both maps start empty, which satisfies the store invariant |
| `Canister.Store.NextId` | src/mama-pack-backend/src/lib.rs:185-190 | returns the old counter value, increases the counter by exactly one, and the id is a key of neither map |
| `Canister.Store.CreateMotherProfile` | src/mama-pack-backend/src/lib.rs:178-210 | an age outside 13..=65 gives InvalidInput and changes nothing. Otherwise exactly one profile is added, under the pre-increment id: payload fields copied, stage derived from the delivery date, Normal status, created and checked at `now`. The counter rises by one, records are untouched, the stored value is returned, and the high-risk list is unchanged. The invariant is preserved |
| `Canister.Store.UpdateMotherStatus` | src/mama-pack-backend/src/lib.rs:272-287 | an unknown mother gives NotFound and changes nothing; otherwise only that profile's status and last checkup change |
| `Canister.Store.AddHealthRecord` | src/mama-pack-backend/src/lib.rs:214-252 | an unknown mother gives NotFound and changes nothing. Otherwise the counter rises by one, and exactly one record is added under the pre-increment id with the payload, date `now` and the computed status. Only the mother's status and last checkup change. The record is appended to her history, and she is high-risk exactly when the new status is Critical. The invariant is preserved |

## Left out

- The Candid `Encode!`/`Decode!` codec and the 2048-byte `BoundedStorable` bound are not modelled. The codec is a foreign library whose byte layout is not visible. An oversized record would make the source panic, and the model has no such case.
- `MemoryManager`, `VirtualMemory`, `StableBTreeMap` and `Cell` internals and the `thread_local!`/`RefCell` wrappers are not modelled. The maps are Dafny `map`s and the counter is a field. Persistence across upgrades is not modelled.
- `ic_cdk::api::time()` is a host call and is not modelled. Each update takes one `now` parameter. The host clock is constant within one message, so all the `time()` calls in one call see the same value.
- The `f32` weight is carried as its 32 raw bits and never read. No floating-point behaviour is modelled.
- The `#[ic_cdk::update]`/`#[ic_cdk::query]` attributes and `export_candid!()` are interface plumbing and are not modelled.
- A failing cell write (`.expect("Cannot increment id counter")`) traps in the source. The model has no such failure, and `SystemError` is never produced, as in the source.
- Canister.Store.CreateMotherProfile: requires the counter to be below 2^64-1 when the age is valid. In the source, `current_value + 1` would panic in a debug build or wrap to 0 in a release build, and a wrapped counter would reuse ids and overwrite entries.
- Canister.Store.AddHealthRecord: requires the counter to be below 2^64-1 when the mother exists, for the same reason.
- Canister.Store.NextId: requires the counter to be below 2^64-1, for the same reason.
- Classifier.Contains works on characters, while Rust `str::contains` works on UTF-8 bytes. The two agree for the ASCII keywords matched here.
- Queries.GetMotherHealthRecords and Queries.GetHighRiskProfiles: the increasing-id order is stated for maps whose entries are stored under their own ids. Canister.ConsistentIsKeyedById proves that the store invariant guarantees this for the store's maps.
