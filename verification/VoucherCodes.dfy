/** The codes of a new batch (backend/internal/billing/voucher.go: insertCodes). The random generator is
    the sequence of codes it draws in each attempt, the hash a function.
 */
module VoucherCodes {
  import opened Wrappers

  const ATTEMPTS := 5

  ghost predicate DistinctHashes(hash: string -> string, codes: seq<string>) {
    forall i, j | 0 <= i < j < |codes| :: hash(codes[i]) != hash(codes[j])
  }

  function Hashes(hash: string -> string, codes: seq<string>): set<string> {
    set c | c in codes :: hash(c)
  }

  /** The first `need` drawn codes with different hashes; fewer when the draws run out. */
  method DrawDistinct(hash: string -> string, draws: seq<string>, need: nat) returns (codes: seq<string>)
    ensures |codes| <= need && DistinctHashes(hash, codes)
    ensures forall c | c in codes :: c in draws
    ensures |codes| < need ==> forall c | c in draws :: hash(c) in Hashes(hash, codes)
  {
    codes := [];
    var seen: set<string> := {};
    var k := 0;
    while k < |draws| && |codes| < need
      invariant k <= |draws| && |codes| <= need
      invariant seen == Hashes(hash, codes)
      invariant DistinctHashes(hash, codes)
      invariant forall c | c in codes :: c in draws
      invariant forall c | c in draws[..k] :: hash(c) in Hashes(hash, codes)
    {
      var h := hash(draws[k]);
      if h !in seen {
        codes := codes + [draws[k]];
        seen := seen + {h};
      }
      k := k + 1;
    }
  }

  /** Either exactly `want` codes, with hashes that differ from each other and from every code ever issued,
      and the table with exactly those added; or nothing, and the transaction is rolled back. */
  method InsertCodes(hash: string -> string, table: set<string>, want: nat, draws: seq<seq<string>>)
      returns (r: Option<seq<string>>, after: set<string>)
    requires |draws| >= ATTEMPTS
    ensures r.None? ==> after == table
    ensures r.Some? ==> |r.value| == want && DistinctHashes(hash, r.value)
    ensures r.Some? ==> forall c | c in r.value :: hash(c) !in table
    ensures r.Some? ==> after == table + Hashes(hash, r.value)
    ensures r.Some? ==> forall c | c in r.value :: exists a | 0 <= a < ATTEMPTS :: c in draws[a]
  {
    var plain: seq<string> := [];
    after := table;
    var attempt := 0;
    while |plain| < want && attempt < ATTEMPTS
      invariant |plain| <= want && attempt <= ATTEMPTS
      invariant DistinctHashes(hash, plain)
      invariant forall c | c in plain :: hash(c) !in table
      invariant after == table + Hashes(hash, plain)
      invariant forall c | c in plain :: exists a | 0 <= a < ATTEMPTS :: c in draws[a]
      decreases ATTEMPTS - attempt
    {
      var need := want - |plain|;
      var codes := DrawDistinct(hash, draws[attempt], need);
      if |codes| < need {
        return None, table;
      }
      for i := 0 to |codes|
        invariant |plain| <= want - need + i
        invariant DistinctHashes(hash, plain)
        invariant forall c | c in plain :: hash(c) !in table
        invariant after == table + Hashes(hash, plain)
        invariant forall c | c in plain :: exists a | 0 <= a < ATTEMPTS :: c in draws[a]
      {
        var h := hash(codes[i]);
        if h !in after {
          assert forall c | c in plain :: hash(c) != h;
          plain := plain + [codes[i]];
          after := after + {h};
        }
      }
      attempt := attempt + 1;
    }
    if |plain| < want {
      return None, table;
    }
    return Some(plain), after;
  }
}
