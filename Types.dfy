/** Value types of the mama-pack backend: the records it stores, the
    payloads it accepts and the errors it returns. */
module MamaTypes {

  const U64_LIMIT: nat := 0x1_0000_0000_0000_0000

  /** Rust `u64`: timestamps in nanoseconds and record ids. */
  type u64 = x: nat | x < U64_LIMIT

  /** Rust `u8`: the mother's age. */
  type u8 = x: nat | x < 256

  /** The 32 bits of an IEEE-754 `f32`; carried through unchanged, never read. */
  type F32Bits = bv32

  datatype PregnancyStage = FirstTrimester | SecondTrimester | ThirdTrimester | PostPartum

  datatype HealthStatus = Normal | NeedsAttention | Critical

  datatype MotherProfile = MotherProfile(
    id: u64,
    name: string,
    age: u8,
    bloodType: string,
    expectedDeliveryDate: u64,
    stage: PregnancyStage,
    healthStatus: HealthStatus,
    createdAt: u64,
    lastCheckup: u64,
    medicalHistory: seq<string>,
    emergencyContact: string)

  datatype HealthRecord = HealthRecord(
    id: u64,
    motherId: u64,
    date: u64,
    bloodPressure: string,
    weight: F32Bits,
    symptoms: seq<string>,
    notes: string,
    nextAppointment: u64,
    healthStatus: HealthStatus)

  datatype MotherProfilePayload = MotherProfilePayload(
    name: string,
    age: u8,
    bloodType: string,
    expectedDeliveryDate: u64,
    medicalHistory: seq<string>,
    emergencyContact: string)

  datatype HealthRecordPayload = HealthRecordPayload(
    motherId: u64,
    bloodPressure: string,
    weight: F32Bits,
    symptoms: seq<string>,
    notes: string,
    nextAppointment: u64)

  datatype Error =
    | NotFound(msg: string)
    | InvalidInput(msg: string)
    | SystemError(msg: string)

  datatype Result<T> = Ok(value: T) | Err(error: Error)

  /** A canonical decimal numeral: one or more digits, with no leading zero
      unless the numeral is "0" itself. */
  predicate IsDecimal(s: string)
  {
    && |s| >= 1
    && (forall i :: 0 <= i < |s| ==> '0' <= s[i] <= '9')
    && (|s| > 1 ==> s[0] != '0')
  }

  /** Decimal rendering of a number, as Rust's `{}` formats a `u64`. */
  function Decimal(n: nat): (s: string)
    ensures IsDecimal(s)
  {
    var d := [('0' as int + n % 10) as char];
    if n < 10 then d else Decimal(n / 10) + d
  }

  /** The number a string of decimal digits denotes. */
  ghost function DigitsValue(s: string): nat
  {
    if s == [] then 0
    else DigitsValue(s[..|s| - 1]) * 10 + ((s[|s| - 1] as int - '0' as int) % 10)
  }

  /** Reading the rendered digits back gives the number. */
  lemma {:induction false} DecimalRoundTrip(n: nat)
    ensures DigitsValue(Decimal(n)) == n
  {
    var s := Decimal(n);
    if n >= 10 {
      DecimalRoundTrip(n / 10);
      assert s[..|s| - 1] == Decimal(n / 10);
    }
  }

  /** A numeral whose first digit is not '0' denotes a positive number. */
  lemma {:induction false} LeadingDigitPositive(s: string)
    requires IsDecimal(s) && s[0] != '0'
    ensures DigitsValue(s) > 0
    decreases |s|
  {
    if |s| > 1 {
      var p := s[..|s| - 1];
      assert p[0] == s[0];
      LeadingDigitPositive(p);
    }
  }

  /** Every canonical numeral is the rendering of the number it denotes, so
      `Decimal` and `DigitsValue` are inverse bijections between numbers and
      canonical numerals. */
  lemma {:induction false} DecimalOfDigitsValue(s: string)
    requires IsDecimal(s)
    ensures Decimal(DigitsValue(s)) == s
    decreases |s|
  {
    var last := s[|s| - 1];
    var d := last as int - '0' as int;
    if |s| == 1 {
      assert DigitsValue(s) == d;
    } else {
      var p := s[..|s| - 1];
      assert p[0] == s[0];
      DecimalOfDigitsValue(p);
      LeadingDigitPositive(p);
      var v := DigitsValue(s);
      assert v == DigitsValue(p) * 10 + d;
      assert v / 10 == DigitsValue(p) && v % 10 == d;
      assert s == p + [last];
    }
  }

  /** The message Rust formats as "Mother with id={} not found". */
  function MotherNotFound(id: u64): (msg: string)
    ensures |msg| > |"Mother with id="| + |" not found"|
    ensures msg[..|"Mother with id="|] == "Mother with id="
    ensures msg[|msg| - |" not found"|..] == " not found"
    ensures IsDecimal(msg[|"Mother with id="|..|msg| - |" not found"|])
    ensures DigitsValue(msg[|"Mother with id="|..|msg| - |" not found"|]) == id
  {
    var digits := Decimal(id);
    DecimalRoundTrip(id);
    var msg := "Mother with id=" + digits + " not found";
    assert msg[|"Mother with id="|..|msg| - |" not found"|] == digits;
    msg
  }

  /** The message Rust formats as "No health records found for mother_id={}". */
  function NoRecordsFor(motherId: u64): (msg: string)
    ensures |msg| > |"No health records found for mother_id="|
    ensures msg[..|"No health records found for mother_id="|] == "No health records found for mother_id="
    ensures IsDecimal(msg[|"No health records found for mother_id="|..])
    ensures DigitsValue(msg[|"No health records found for mother_id="|..]) == motherId
  {
    var digits := Decimal(motherId);
    DecimalRoundTrip(motherId);
    var msg := "No health records found for mother_id=" + digits;
    assert msg[|"No health records found for mother_id="|..] == digits;
    msg
  }

  function RecordId(r: HealthRecord): u64 { r.id }

  function ProfileId(p: MotherProfile): u64 { p.id }

  /** Every entry is stored under its own id, as both maps of the store are. */
  ghost predicate KeyedById<V>(m: map<u64, V>, id: V -> u64)
  {
    forall k :: k in m ==> id(m[k]) == k
  }
}
