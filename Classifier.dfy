/** The two pure classifiers of the backend: the pregnancy stage derived from
    the expected delivery date, and the health status derived from a checkup. */
module Classifier {
  import opened MamaTypes

  /** One week in nanoseconds, the unit of the host clock. */
  const WEEK_NS: nat := 7 * 24 * 60 * 60 * 1_000_000_000

  /** Whole weeks in `diff` nanoseconds are below `n` exactly when `diff` is. */
  lemma WeeksBelow(diff: nat, n: nat)
    ensures diff / WEEK_NS < n <==> diff < n * WEEK_NS
  {
  }

  /** The stage for a delivery date `edd`, seen at time `now`: the whole weeks
      left before `edd` (none once it has passed) fall into 0..=12, 13..=26,
      27..=40 or beyond. A date at or before `now` is ThirdTrimester. */
  function CalculatePregnancyStage(edd: u64, now: u64): (r: PregnancyStage)
    ensures r == ThirdTrimester <==> edd < now + 13 * WEEK_NS
    ensures r == SecondTrimester <==> now + 13 * WEEK_NS <= edd < now + 27 * WEEK_NS
    ensures r == FirstTrimester <==> now + 27 * WEEK_NS <= edd < now + 41 * WEEK_NS
    ensures r == PostPartum <==> now + 41 * WEEK_NS <= edd
    ensures edd <= now ==> r == ThirdTrimester
  {
    var diff: nat := if edd > now then edd - now else 0;
    WeeksBelow(diff, 13);
    WeeksBelow(diff, 27);
    WeeksBelow(diff, 41);
    var weeks := diff / WEEK_NS;
    if weeks <= 12 then ThirdTrimester
    else if weeks <= 26 then SecondTrimester
    else if weeks <= 40 then FirstTrimester
    else PostPartum
  }

  /** `w` occurs in `s` starting at position `j`. */
  ghost predicate OccursAt(s: string, w: string, j: int)
  {
    0 <= j <= |s| - |w| && s[j..j + |w|] == w
  }

  /** `w` occurs in `s` as a contiguous run of characters (Rust `str::contains`). */
  ghost predicate Mentions(s: string, w: string)
  {
    exists j :: OccursAt(s, w, j)
  }

  /** Substring search, one start position after another. */
  function Contains(s: string, w: string): (r: bool)
    ensures r <==> Mentions(s, w)
    decreases |s|
  {
    if |s| < |w| then false
    else if s[..|w|] == w then assert OccursAt(s, w, 0); true
    else
      var r := Contains(s[1..], w);
      assert r ==> Mentions(s, w) by {
        if r {
          var j :| OccursAt(s[1..], w, j);
          assert s[j + 1..j + 1 + |w|] == w;
          assert OccursAt(s, w, j + 1);
        }
      }
      assert Mentions(s, w) ==> r by {
        if Mentions(s, w) {
          var j :| OccursAt(s, w, j);
          assert j != 0;
          assert s[1..][j - 1..j - 1 + |w|] == w;
          assert OccursAt(s[1..], w, j - 1);
        }
      }
      r
  }

  /** The words that mark a symptom as critical; matched case-sensitively. */
  const CRITICAL_WORDS: seq<string> := ["severe", "emergency", "critical"]

  /** The symptom test of `analyze_health_status`. */
  function IsCriticalSymptom(s: string): (r: bool)
    ensures r <==> exists k :: 0 <= k < |CRITICAL_WORDS| && Mentions(s, CRITICAL_WORDS[k])
  {
    assert CRITICAL_WORDS[0] == "severe" && CRITICAL_WORDS[1] == "emergency" && CRITICAL_WORDS[2] == "critical";
    Contains(s, "severe") || Contains(s, "emergency") || Contains(s, "critical")
  }

  /** Some symptom is critical (Rust `iter().any(..)`). */
  function AnyCriticalSymptom(symptoms: seq<string>): (r: bool)
    ensures r <==> exists i :: 0 <= i < |symptoms| && IsCriticalSymptom(symptoms[i])
  {
    if symptoms == [] then false
    else IsCriticalSymptom(symptoms[0]) || AnyCriticalSymptom(symptoms[1..])
  }

  /** Critical when some symptom names a critical word, otherwise
      NeedsAttention when any symptom is reported, otherwise Normal. */
  function AnalyzeHealthStatus(p: HealthRecordPayload): (r: HealthStatus)
    ensures r == Critical <==>
      exists i, k :: 0 <= i < |p.symptoms| && 0 <= k < |CRITICAL_WORDS| && Mentions(p.symptoms[i], CRITICAL_WORDS[k])
    ensures r == NeedsAttention <==>
      p.symptoms != [] && forall i, k :: 0 <= i < |p.symptoms| && 0 <= k < |CRITICAL_WORDS| ==> !Mentions(p.symptoms[i], CRITICAL_WORDS[k])
    ensures r == Normal <==> p.symptoms == []
  {
    if AnyCriticalSymptom(p.symptoms) then Critical
    else if p.symptoms != [] then NeedsAttention
    else Normal
  }

  /** Blood pressure, weight, notes and the next appointment never change the status. */
  lemma StatusDependsOnlyOnSymptoms(p: HealthRecordPayload, q: HealthRecordPayload)
    requires p.symptoms == q.symptoms
    ensures AnalyzeHealthStatus(p) == AnalyzeHealthStatus(q)
  {
  }
}
