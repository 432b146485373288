/** Byte counters of one RADIUS session (backend/internal/accounting/record.go).

    A NAS reports a 32-bit octet count and, when it supports it, the number of
    times that count has wrapped (Acct-*-Gigawords, sections 5.1 and 5.2 of
    RFC 2869). The pipeline turns successive readings into deltas.
 */
module OctetCounters {

  const WORD: nat := 0x1_0000_0000
  const HALF_WORD: nat := 0x8000_0000
  const TWO_TO_THE_64: nat := 0x1_0000_0000_0000_0000
  const TWO_TO_THE_63: nat := 0x8000_0000_0000_0000

  /** Go's uint64. */
  type uint64 = n: int | 0 <= n < TWO_TO_THE_64

  /** Go's int64, which is what a bigint column stores. */
  type int64 = n: int | 0 - TWO_TO_THE_63 <= n < TWO_TO_THE_63

  /** The conversion int64(n): values from 2^63 on come out negative. */
  function ToInt64(n: uint64): int64 {
    if n < TWO_TO_THE_63 then n else n - TWO_TO_THE_64
  }

  /** The conversion uint64(n). */
  function FromInt64(n: int64): uint64 {
    if n >= 0 then n else n + TWO_TO_THE_64
  }

  datatype Reading = Reading(octets: uint64, gigawords: uint64)

  function TotalBytes(r: Reading): uint64 {
    (r.gigawords % WORD) * WORD + r.octets % WORD
  }

  /** The low word fell from its upper half to its lower half although no gigaword was reported. */
  predicate LooksWrapped(last: uint64, r: Reading) {
    && r.gigawords == 0
    && last > 0
    && r.octets < last % WORD
    && last % WORD > HALF_WORD
    && r.octets < HALF_WORD
  }

  datatype Advanced = Advanced(total: uint64, delta: uint64)

  /** The new stored total and the delta since `last`. */
  function Advance(last: uint64, r: Reading): Advanced {
    var cur := if LooksWrapped(last, r)
               then ((last / WORD + 1) % WORD) * WORD + r.octets
               else TotalBytes(r);
    if cur >= last then Advanced(cur, cur - last) else Advanced(cur, cur)
  }

  /** The sum of the deltas emitted for a run of readings, starting from a stored total. */
  function Accrued(last: uint64, rs: seq<Reading>): nat
    decreases rs
  {
    if rs == [] then 0
    else
      var a := Advance(last, rs[0]);
      a.delta + Accrued(a.total, rs[1..])
  }

  /** The true traffic count after the run. */
  function Final(t: nat, ts: seq<nat>): nat
    decreases ts
  {
    if ts == [] then t else Final(ts[0], ts[1..])
  }

  ghost predicate Nondecreasing(t: nat, ts: seq<nat>)
    decreases ts
  {
    ts != [] ==> t <= ts[0] && Nondecreasing(ts[0], ts[1..])
  }

  // ---- A NAS that reports gigawords ----

  function WithGigawords(ts: seq<uint64>): seq<Reading> {
    if ts == [] then [] else [Reading(ts[0] % WORD, ts[0] / WORD)] + WithGigawords(ts[1..])
  }

  /** The deltas of a NAS that reports gigawords telescope to exactly the traffic it carried. */
  lemma {:induction false} GigawordsTelescope(t: uint64, ts: seq<uint64>)
    requires Nondecreasing(t, ts)
    ensures Accrued(t, WithGigawords(ts)) == Final(t, ts) - t
    decreases ts
  {
    if ts != [] {
      assert Advance(t, Reading(ts[0] % WORD, ts[0] / WORD)) == Advanced(ts[0], ts[0] - t);
      GigawordsTelescope(ts[0], ts[1..]);
      assert WithGigawords(ts)[1..] == WithGigawords(ts[1..]);
    }
  }

  // ---- A NAS that never reports gigawords ----

  function LowWordsOnly(ts: seq<nat>): seq<Reading> {
    if ts == [] then [] else [Reading(ts[0] % WORD, 0)] + LowWordsOnly(ts[1..])
  }

  /** Less than 2^31 octets move between two readings. */
  ghost predicate SlowSteps(t: nat, ts: seq<nat>)
    decreases ts
  {
    ts != [] ==> t <= ts[0] < t + HALF_WORD && SlowSteps(ts[0], ts[1..])
  }

  /** The stored total after a reading taken at traffic count t: the low word,
      with one wrap still carried when the reading before t saw it. */
  function StoredAt(carried: bool, t: nat): uint64 {
    (if carried then WORD else 0) + t % WORD
  }

  /** What is counted twice: a carried wrap is forgotten by the next reading,
      which then counts the whole low word again. */
  function Excess(carried: bool, t: nat, ts: seq<nat>): nat
    decreases ts
  {
    if ts == [] then 0
    else (if carried then t % WORD else 0) + Excess(t / WORD != ts[0] / WORD, ts[0], ts[1..])
  }

  /** A step of less than half a word, by low words. */
  lemma LowWordsMove(t: nat, u: nat)
    requires t <= u < t + HALF_WORD
    ensures || (u / WORD == t / WORD && u % WORD == t % WORD + (u - t))
            || (u / WORD == t / WORD + 1 && u % WORD == t % WORD + (u - t) - WORD && u % WORD < HALF_WORD < t % WORD)
  {
  }

  lemma StoredLowWord(carried: bool, lo: nat)
    requires lo < WORD
    ensures var stored := (if carried then WORD else 0) + lo;
            stored % WORD == lo && stored / WORD == if carried then 1 else 0
  {
  }

  /** One reading: the interim that wraps is counted exactly, the one after it
      over-counts by the low word it started from. */
  lemma LowWordStep(carried: bool, t: nat, u: nat)
    requires t <= u < t + HALF_WORD
    requires carried ==> t % WORD < HALF_WORD
    ensures var wraps := t / WORD != u / WORD;
            && (wraps ==> !carried && u % WORD < HALF_WORD && u / WORD == t / WORD + 1)
            && Advance(StoredAt(carried, t), Reading(u % WORD, 0))
               == Advanced(StoredAt(wraps, u), u - t + (if carried then t % WORD else 0))
  {
    LowWordsMove(t, u);
    StoredLowWord(carried, t % WORD);
  }

  /** Without gigawords the deltas sum to the true traffic plus the excess, exactly. */
  lemma {:induction false} LowWordsAccrue(carried: bool, t: nat, ts: seq<nat>)
    requires SlowSteps(t, ts)
    requires carried ==> t % WORD < HALF_WORD
    ensures Accrued(StoredAt(carried, t), LowWordsOnly(ts)) == Final(t, ts) - t + Excess(carried, t, ts)
    decreases ts
  {
    if ts != [] {
      LowWordStep(carried, t, ts[0]);
      LowWordsAccrue(t / WORD != ts[0] / WORD, ts[0], ts[1..]);
      assert LowWordsOnly(ts)[1..] == LowWordsOnly(ts[1..]);
    }
  }

  /** The excess stays below 2^31 for every time the low word wrapped. */
  lemma {:induction false} ExcessBound(carried: bool, t: nat, ts: seq<nat>)
    requires SlowSteps(t, ts)
    requires carried ==> t % WORD < HALF_WORD
    ensures t / WORD <= Final(t, ts) / WORD
    ensures Excess(carried, t, ts)
            <= ((if carried then 1 else 0) + Final(t, ts) / WORD - t / WORD) * (HALF_WORD - 1)
    decreases ts
  {
    if ts != [] {
      LowWordStep(carried, t, ts[0]);
      ExcessBound(t / WORD != ts[0] / WORD, ts[0], ts[1..]);
    }
  }

  /** A session's readings from its first record on: never less than the true
      traffic, and less than 2^31 octets too much for each wrap. */
  lemma LowWordsNeverUndercount(t: nat, ts: seq<nat>)
    requires SlowSteps(t, ts)
    ensures var sum := Accrued(t % WORD, LowWordsOnly(ts));
            var truth := Final(t, ts) - t;
            truth <= sum <= truth + (Final(t, ts) / WORD - t / WORD) * (HALF_WORD - 1)
  {
    LowWordsAccrue(false, t, ts);
    ExcessBound(false, t, ts);
  }

  /** The over-count does happen: one wrap to 0x10 followed by a further 0x10 octets. */
  lemma OvercountWitness()
    ensures Accrued(0xFFFF_FFF0, LowWordsOnly([0x1_0000_0010, 0x1_0000_0020])) == 0x30 + 0x10
  {
    var t, ts := 0xFFFF_FFF0, [0x1_0000_0010, 0x1_0000_0020];
    assert ts[1..] == [0x1_0000_0020] && ts[1..][1..] == [];
    LowWordsAccrue(false, t, ts);
    assert Excess(false, t, ts) == Excess(true, 0x1_0000_0010, ts[1..]) == 0x10 + Excess(false, 0x1_0000_0020, []);
  }
}
