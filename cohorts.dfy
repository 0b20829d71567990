/**
 * The cohort builder (`group_results`): records are partitioned by
 * (spec_reference, target_model, api_style), each cohort keeping the input
 * order. The speed pass builds its cohorts with the same loop.
 */
module Cohorts {
  import opened Records

  /** The records of cohort `k`, in input order. */
  function Cohort(rs: seq<Record>, k: CohortKey): (c: seq<Record>)
    ensures |c| <= |rs|
    ensures forall j :: 0 <= j < |c| ==> Key(c[j]) == k
  {
    if |rs| == 0 then []
    else
      var last := rs[|rs| - 1];
      Cohort(rs[..|rs| - 1], k) + (if Key(last) == k then [last] else [])
  }

  /** The keys of the cohorts that `rs` falls into. */
  function CohortKeys(rs: seq<Record>): set<CohortKey>
  {
    set i | 0 <= i < |rs| :: Key(rs[i])
  }

  /** A record is in cohort `k` exactly when it is in the input and has key `k`. */
  lemma {:induction false} CohortMembers(rs: seq<Record>, k: CohortKey, r: Record)
    ensures r in Cohort(rs, k) <==> r in rs && Key(r) == k
  {
    if |rs| > 0 {
      var init, last := rs[..|rs| - 1], rs[|rs| - 1];
      assert rs == init + [last];
      CohortMembers(init, k, r);
    }
  }

  /** A cohort is empty exactly when no record has its key. */
  lemma CohortEmptyIff(rs: seq<Record>, k: CohortKey)
    ensures Cohort(rs, k) == [] <==> k !in CohortKeys(rs)
  {
    var c := Cohort(rs, k);
    if c != [] {
      CohortMembers(rs, k, c[0]);
      var j :| 0 <= j < |rs| && rs[j] == c[0];
      assert Key(rs[j]) in CohortKeys(rs);
    }
    if k in CohortKeys(rs) {
      var j :| 0 <= j < |rs| && Key(rs[j]) == k;
      CohortMembers(rs, k, rs[j]);
    }
  }

  /**
   * The loop of `group_results`: append each record to the list of its key.
   * The result maps exactly the keys that occur to their cohorts.
   */
  method GroupResults(results: seq<Record>) returns (grouped: map<CohortKey, seq<Record>>)
    ensures grouped.Keys == CohortKeys(results)
    ensures forall k :: k in grouped ==> grouped[k] == Cohort(results, k) && grouped[k] != []
  {
    grouped := map[];
    for i := 0 to |results|
      invariant grouped.Keys == CohortKeys(results[..i])
      invariant forall k :: k in grouped ==> grouped[k] == Cohort(results[..i], k) && grouped[k] != []
    {
      var result := results[i];
      var key := Key(result);
      var members := if key in grouped then grouped[key] else [];
      CohortEmptyIff(results[..i], key);
      grouped := grouped[key := members + [result]];
      assert results[..i + 1] == results[..i] + [result];
      CohortKeysSnoc(results[..i], result);
      forall k | k in grouped
        ensures grouped[k] == Cohort(results[..i + 1], k)
      {
        CohortSnoc(results[..i], result, k);
      }
    }
    assert results[..|results|] == results;
  }

  lemma CohortSnoc(rs: seq<Record>, r: Record, k: CohortKey)
    ensures Cohort(rs + [r], k) == Cohort(rs, k) + (if Key(r) == k then [r] else [])
  {
    assert (rs + [r])[..|rs|] == rs;
  }

  lemma CohortKeysSnoc(rs: seq<Record>, r: Record)
    ensures CohortKeys(rs + [r]) == CohortKeys(rs) + {Key(r)}
  {
    var rs' := rs + [r];
    forall k | k in CohortKeys(rs')
      ensures k in CohortKeys(rs) + {Key(r)}
    {
      var j :| 0 <= j < |rs'| && Key(rs'[j]) == k;
      if j < |rs| {
        assert rs'[j] == rs[j];
      }
    }
    forall k | k in CohortKeys(rs) + {Key(r)}
      ensures k in CohortKeys(rs')
    {
      if k == Key(r) {
        assert Key(rs'[|rs|]) == k;
      } else {
        var j :| 0 <= j < |rs| && Key(rs[j]) == k;
        assert Key(rs'[j]) == k;
      }
    }
  }

  /**
   * The cohorts split the input exactly: every occurrence of a record lands
   * in the cohort of its own key, and in no other.
   */
  lemma {:induction false} CohortMultiplicity(rs: seq<Record>, k: CohortKey, r: Record)
    ensures multiset(Cohort(rs, k))[r] == if Key(r) == k then multiset(rs)[r] else 0
  {
    if |rs| > 0 {
      var init, last := rs[..|rs| - 1], rs[|rs| - 1];
      assert rs == init + [last];
      CohortMultiplicity(init, k, r);
    }
  }

  /** Cohorts keep input order: records earlier in the input come earlier in the cohort. */
  lemma {:induction false} CohortOfConcat(a: seq<Record>, b: seq<Record>, k: CohortKey)
    ensures Cohort(a + b, k) == Cohort(a, k) + Cohort(b, k)
  {
    if |b| == 0 {
      assert a + b == a;
    } else {
      var init, last := b[..|b| - 1], b[|b| - 1];
      assert (a + b)[..|a + b| - 1] == a + init;
      CohortOfConcat(a, init, k);
    }
  }

  /** Records of other cohorts added to the input leave a cohort as it was. */
  lemma CohortIgnoresOthers(a: seq<Record>, b: seq<Record>, k: CohortKey)
    requires forall i :: 0 <= i < |b| ==> Key(b[i]) != k
    ensures Cohort(a + b, k) == Cohort(a, k)
  {
    CohortEmptyIff(b, k);
    CohortOfConcat(a, b, k);
  }
}
