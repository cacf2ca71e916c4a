/** Choice of the file the reaction ledger is exported to: the default path,
    or the first numbered variant of it that does not exist yet. */
module Export {

  /** The default path split at its extension. */
  const Base: string := "Outputs/output"
  const Extension: string := ".csv"

  /** The decimal digit for d. */
  function DigitChar(d: nat): char
    requires d < 10
  {
    ('0' as int + d) as char
  }

  /** Decimal representation of n, without leading zeros. */
  function Decimal(n: nat): (s: string)
    ensures |s| >= 1
    ensures n >= 10 ==> |s| >= 2
    ensures forall i :: 0 <= i < |s| ==> '0' <= s[i] <= '9'
    decreases n
  {
    if n < 10 then [DigitChar(n)] else Decimal(n / 10) + [DigitChar(n % 10)]
  }

  /** Different numbers have different decimal representations. */
  lemma {:induction false} DecimalInjective(a: nat, b: nat)
    requires Decimal(a) == Decimal(b)
    ensures a == b
    decreases a
  {
    if a >= 10 && b >= 10 {
      var da, db := Decimal(a), Decimal(b);
      assert da[..|da| - 1] == Decimal(a / 10);
      assert db[..|db| - 1] == Decimal(b / 10);
      DecimalInjective(a / 10, b / 10);
      assert DigitChar(a % 10) == da[|da| - 1] == db[|db| - 1] == DigitChar(b % 10);
    }
  }

  /** The path tried for a suffix: the default path for 0, otherwise the base
      name, an underscore and the suffix, then the extension. */
  function CandidatePath(suffix: nat): string {
    if suffix == 0 then Base + Extension
    else Base + "_" + Decimal(suffix) + Extension
  }

  /** Different suffixes name different files. */
  lemma CandidateInjective(j: nat, k: nat)
    ensures CandidatePath(j) == CandidatePath(k) ==> j == k
  {
    if j != 0 && k != 0 && CandidatePath(j) == CandidatePath(k) {
      var pj, pk := CandidatePath(j), CandidatePath(k);
      assert pj[15..|pj| - 4] == Decimal(j);
      assert pk[15..|pk| - 4] == Decimal(k);
      DecimalInjective(j, k);
    }
  }

  /** The path search: try suffixes 0, 1, 2, ... and stop at the first path that
      does not exist. The result never names an existing file, and every
      earlier candidate exists, so it is the least free one; it terminates
      because distinct suffixes name distinct files and only finitely many exist. */
  method ChoosePath(existing: set<string>) returns (path: string, suffix: nat)
    ensures path == CandidatePath(suffix)
    ensures path !in existing
    ensures forall j :: 0 <= j < suffix ==> CandidatePath(j) in existing
    ensures suffix <= |existing|
    ensures CandidatePath(0) !in existing ==> path == "Outputs/output.csv"
  {
    suffix := 0;
    ghost var tried: set<string> := {};
    while CandidatePath(suffix) in existing
      invariant tried <= existing
      invariant |tried| == suffix <= |existing|
      invariant forall j :: 0 <= j < suffix ==> CandidatePath(j) in tried
      invariant forall p :: p in tried ==> exists j :: 0 <= j < suffix && p == CandidatePath(j)
      decreases |existing| - |tried|
    {
      if CandidatePath(suffix) in tried {
        var j :| 0 <= j < suffix && CandidatePath(suffix) == CandidatePath(j);
        CandidateInjective(suffix, j);
        assert false;
      }
      tried := tried + {CandidatePath(suffix)};
      suffix := suffix + 1;
      SubsetCardinality(tried, existing);
    }
    path := CandidatePath(suffix);
  }

  lemma SubsetCardinality(a: set<string>, b: set<string>)
    requires a <= b
    ensures |a| <= |b|
  {
    assert b == a + (b - a);
  }
}
