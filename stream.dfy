/** Properties of a whole run of the record loop (main.go:80-124), stated about
    `Filter`, the function `Gate.Run` is proved to compute. */
module DedupStream {
  import opened GoValues
  import opened KeyDeriver
  import opened DedupGate

  /** The records of the lines that decoded, in input order. */
  function DecodedRecords(lines: seq<Line>): (recs: seq<Record>)
    ensures |recs| <= |lines|
    decreases |lines|
  {
    if lines == [] then []
    else
      var n := |lines| - 1;
      match lines[n]
      case Undecodable => DecodedRecords(lines[..n])
      case Decoded(rec) => DecodedRecords(lines[..n]) + [rec]
  }

  /** The dedup keys of those records that have the configured field. */
  function KeysOf(cfg: Config, recs: seq<Record>): set<GoString> {
    set r | r in recs && DeriveKey(cfg, r).Some? :: DeriveKey(cfg, r).value
  }

  function InputKeys(cfg: Config, lines: seq<Line>): set<GoString> {
    KeysOf(cfg, DecodedRecords(lines))
  }

  /** `a` is `b` with some elements left out and the rest in their order. */
  ghost predicate IsSubsequence<T>(a: seq<T>, b: seq<T>)
    decreases |b|
  {
    a == [] ||
    (b != [] &&
     ((a[|a| - 1] == b[|b| - 1] && IsSubsequence(a[..|a| - 1], b[..|b| - 1]))
      || IsSubsequence(a, b[..|b| - 1])))
  }

  /** Neither store call fails for the first n records. */
  ghost predicate Healthy(health: nat -> StoreHealth, n: nat) {
    forall i :: 0 <= i < n ==> health(i) == StoreHealth(true, true)
  }

  /** Every record in `added` has a key, none of those keys is in `before`,
      and no two of them are equal. */
  ghost predicate NewDistinctKeys(cfg: Config, before: set<GoString>, added: seq<Record>) {
    && (forall r :: r in added ==> DeriveKey(cfg, r).Some? && DeriveKey(cfg, r).value !in before)
    && (forall i, j :: 0 <= i < j < |added| ==> DeriveKey(cfg, added[i]) != DeriveKey(cfg, added[j]))
  }

  /** `s` extends `s0`'s output, the extension carries new distinct keys, and
      the table grew by exactly those keys. */
  ghost predicate Accounted(cfg: Config, s0: GateState, s: GateState) {
    && |s0.out| <= |s.out| && s.out[..|s0.out|] == s0.out
    && NewDistinctKeys(cfg, s0.claimed, s.out[|s0.out|..])
    && s.claimed == s0.claimed + KeysOf(cfg, s.out[|s0.out|..])
  }

  lemma KeysOfAppend(cfg: Config, recs: seq<Record>, r: Record)
    ensures KeysOf(cfg, recs + [r]) ==
      KeysOf(cfg, recs) + (if DeriveKey(cfg, r).Some? then {DeriveKey(cfg, r).value} else {})
  {
    var extra := if DeriveKey(cfg, r).Some? then {DeriveKey(cfg, r).value} else {};
    forall k | k in KeysOf(cfg, recs + [r])
      ensures k in KeysOf(cfg, recs) + extra
    {
      var q :| q in recs + [r] && DeriveKey(cfg, q).Some? && DeriveKey(cfg, q).value == k;
      if q != r {
        assert q in recs;
      }
    }
    forall k | k in KeysOf(cfg, recs) + extra
      ensures k in KeysOf(cfg, recs + [r])
    {
      if k in KeysOf(cfg, recs) {
        var q :| q in recs && DeriveKey(cfg, q).Some? && DeriveKey(cfg, q).value == k;
        assert q in recs + [r];
      } else {
        assert r in recs + [r];
      }
    }
  }

  lemma SubsequenceSnoc<T>(a: seq<T>, b: seq<T>, x: T)
    requires IsSubsequence(a, b)
    ensures IsSubsequence(a, b + [x])
    ensures IsSubsequence(a + [x], b + [x])
  {
    assert (b + [x])[..|b|] == b;
    assert (a + [x])[..|a|] == a;
  }

  /** Forwarding a record whose key is not yet claimed keeps `Accounted`. */
  lemma AccountedSnoc(cfg: Config, s0: GateState, s: GateState, rec: Record, k: GoString)
    requires Accounted(cfg, s0, s)
    requires DeriveKey(cfg, rec) == Some(k) && k !in s.claimed
    ensures Accounted(cfg, s0, s.(claimed := s.claimed + {k}, out := s.out + [rec]))
  {
    var added := s.out[|s0.out|..];
    var out' := s.out + [rec];
    assert out'[..|s0.out|] == s0.out;
    assert out'[|s0.out|..] == added + [rec];
    KeysOfAppend(cfg, added, rec);
    forall i | 0 <= i < |added|
      ensures DeriveKey(cfg, added[i]) != Some(k)
    {
      assert added[i] in added;
      assert DeriveKey(cfg, added[i]).value in KeysOf(cfg, added);
    }
    assert NewDistinctKeys(cfg, s0.claimed, added + [rec]);
  }

  lemma StepAccounted(cfg: Config, s0: GateState, s: GateState, line: Line, h: StoreHealth)
    requires Accounted(cfg, s0, s)
    ensures Accounted(cfg, s0, Step(cfg, s, line, h).next)
  {
    var t := Step(cfg, s, line, h);
    if t.outcome == Forwarded {
      var k := DeriveKey(cfg, line.rec).value;
      AccountedSnoc(cfg, s0, s, line.rec, k);
      assert t.next == s.(claimed := s.claimed + {k}, out := s.out + [line.rec], calls := t.next.calls);
    } else {
      assert t.next.out == s.out && t.next.claimed == s.claimed;
    }
  }

  lemma {:induction false} FilterAccounted(cfg: Config, s0: GateState, lines: seq<Line>, health: nat -> StoreHealth)
    ensures Accounted(cfg, s0, Filter(cfg, s0, lines, health).final)
    decreases |lines|
  {
    if lines == [] {
      assert s0.out[..|s0.out|] == s0.out;
      assert s0.out[|s0.out|..] == [];
    } else {
      var n := |lines| - 1;
      FilterAccounted(cfg, s0, lines[..n], health);
      StepAccounted(cfg, s0, Filter(cfg, s0, lines[..n], health).final, lines[n], health(n));
    }
  }

  /** The output of a run keeps what was written before, and every record the
      run forwards has a key that was not in the table and that no other
      forwarded record shares, whatever the store's failures (assuming lookups
      see every earlier successful write). */
  lemma ForwardedKeysAreNewAndDistinct(cfg: Config, s0: GateState, lines: seq<Line>, health: nat -> StoreHealth)
    ensures var s := Filter(cfg, s0, lines, health).final;
      |s0.out| <= |s.out| && s.out[..|s0.out|] == s0.out &&
      NewDistinctKeys(cfg, s0.claimed, s.out[|s0.out|..])
  {
    FilterAccounted(cfg, s0, lines, health);
  }

  /** The table only grows, and it grows by exactly the keys of the forwarded
      records: a failed write marks nothing as seen. */
  lemma StoreGrowsByForwardedKeys(cfg: Config, s0: GateState, lines: seq<Line>, health: nat -> StoreHealth)
    ensures var s := Filter(cfg, s0, lines, health).final;
      s0.claimed <= s.claimed &&
      |s0.out| <= |s.out| && s.claimed == s0.claimed + KeysOf(cfg, s.out[|s0.out|..])
  {
    FilterAccounted(cfg, s0, lines, health);
  }

  /** One step keeps the written records a subsequence of the decoded ones. */
  lemma StepKeepsSubsequence(cfg: Config, s0: GateState, s: GateState, line: Line, h: StoreHealth, decoded: seq<Record>)
    requires |s0.out| <= |s.out| && s.out[..|s0.out|] == s0.out
    requires IsSubsequence(s.out[|s0.out|..], decoded)
    ensures var next := Step(cfg, s, line, h).next;
      |s0.out| <= |next.out| && next.out[..|s0.out|] == s0.out &&
      IsSubsequence(next.out[|s0.out|..], decoded + (if line.Decoded? then [line.rec] else []))
  {
    var next := Step(cfg, s, line, h).next;
    var added := s.out[|s0.out|..];
    if line.Decoded? {
      SubsequenceSnoc(added, decoded, line.rec);
      if next.out != s.out {
        assert next.out == s.out + [line.rec];
        assert next.out[..|s0.out|] == s0.out;
        assert next.out[|s0.out|..] == added + [line.rec];
      }
    } else {
      assert decoded + [] == decoded;
    }
  }

  /** The records a run writes are input records, unmodified and in input order. */
  lemma {:induction false} OutputIsSubsequence(cfg: Config, s0: GateState, lines: seq<Line>, health: nat -> StoreHealth)
    ensures var s := Filter(cfg, s0, lines, health).final;
      |s0.out| <= |s.out| && s.out[..|s0.out|] == s0.out &&
      IsSubsequence(s.out[|s0.out|..], DecodedRecords(lines))
    decreases |lines|
  {
    if lines == [] {
      assert s0.out[..|s0.out|] == s0.out;
    } else {
      var n := |lines| - 1;
      OutputIsSubsequence(cfg, s0, lines[..n], health);
      StepKeepsSubsequence(cfg, s0, Filter(cfg, s0, lines[..n], health).final, lines[n], health(n),
                           DecodedRecords(lines[..n]));
      assert DecodedRecords(lines) ==
        DecodedRecords(lines[..n]) + (if lines[n].Decoded? then [lines[n].rec] else []);
    }
  }

  /** The outcome of line i is decided by the state the first i lines left. */
  lemma {:induction false} OutcomeOfLine(cfg: Config, s0: GateState, lines: seq<Line>, health: nat -> StoreHealth, i: nat)
    requires i < |lines|
    ensures Filter(cfg, s0, lines, health).outcomes[i] ==
      Step(cfg, Filter(cfg, s0, lines[..i], health).final, lines[i], health(i)).outcome
    decreases |lines|
  {
    var n := |lines| - 1;
    if i < n {
      OutcomeOfLine(cfg, s0, lines[..n], health, i);
      assert lines[..n][..i] == lines[..i];
    }
  }

  /** Rows written for earlier lines stay in the table for later lines. */
  lemma {:induction false} ClaimedMonotone(cfg: Config, s0: GateState, lines: seq<Line>, health: nat -> StoreHealth, i: nat, j: nat)
    requires i <= j <= |lines|
    ensures Filter(cfg, s0, lines[..i], health).final.claimed <=
            Filter(cfg, s0, lines[..j], health).final.claimed
    decreases j - i
  {
    if i < j {
      ClaimedMonotone(cfg, s0, lines, health, i, j - 1);
      assert lines[..j][..j - 1] == lines[..j - 1];
    }
  }

  /** Once a record is forwarded, no later record with the same key is: its
      lookup either fails or finds the row. */
  lemma DuplicatesAreSuppressed(cfg: Config, s0: GateState, lines: seq<Line>, health: nat -> StoreHealth, i: nat, j: nat)
    requires i < j < |lines|
    requires lines[i].Decoded? && lines[j].Decoded?
    requires DeriveKey(cfg, lines[i].rec) == DeriveKey(cfg, lines[j].rec)
    requires Filter(cfg, s0, lines, health).outcomes[i] == Forwarded
    ensures Filter(cfg, s0, lines, health).outcomes[j] == Duplicate ||
            Filter(cfg, s0, lines, health).outcomes[j] == LookupFailed
  {
    OutcomeOfLine(cfg, s0, lines, health, i);
    OutcomeOfLine(cfg, s0, lines, health, j);
    assert lines[..i + 1][..i] == lines[..i];
    ClaimedMonotone(cfg, s0, lines, health, i + 1, j);
  }

  /** With a healthy store every key in the input ends up in the table. */
  lemma {:induction false} HealthyRunClaimsEveryKey(cfg: Config, s0: GateState, lines: seq<Line>, health: nat -> StoreHealth)
    requires Healthy(health, |lines|)
    ensures Filter(cfg, s0, lines, health).final.claimed == s0.claimed + InputKeys(cfg, lines)
    decreases |lines|
  {
    if lines != [] {
      var n := |lines| - 1;
      HealthyRunClaimsEveryKey(cfg, s0, lines[..n], health);
      assert health(n) == StoreHealth(true, true);
      if lines[n].Decoded? {
        KeysOfAppend(cfg, DecodedRecords(lines[..n]), lines[n].rec);
      }
    }
  }

  /** No silent loss: with a healthy store a line is forwarded exactly when it
      carries a key that neither the table nor an earlier line had. */
  lemma HealthyForwardsFirstOccurrences(cfg: Config, s0: GateState, lines: seq<Line>, health: nat -> StoreHealth, i: nat)
    requires Healthy(health, |lines|) && i < |lines|
    ensures Filter(cfg, s0, lines, health).outcomes[i] == Forwarded <==>
      lines[i].Decoded? && DeriveKey(cfg, lines[i].rec).Some? &&
      DeriveKey(cfg, lines[i].rec).value !in s0.claimed + InputKeys(cfg, lines[..i])
  {
    OutcomeOfLine(cfg, s0, lines, health, i);
    assert Healthy(health, i);
    HealthyRunClaimsEveryKey(cfg, s0, lines[..i], health);
    assert health(i) == StoreHealth(true, true);
  }

  /** With a healthy store the forwarded records carry exactly the input's new
      keys, one record per key. */
  lemma HealthyRunForwardsEachNewKeyOnce(cfg: Config, s0: GateState, lines: seq<Line>, health: nat -> StoreHealth)
    requires Healthy(health, |lines|)
    ensures var s := Filter(cfg, s0, lines, health).final;
      |s0.out| <= |s.out| &&
      KeysOf(cfg, s.out[|s0.out|..]) == InputKeys(cfg, lines) - s0.claimed &&
      NewDistinctKeys(cfg, s0.claimed, s.out[|s0.out|..])
  {
    var s := Filter(cfg, s0, lines, health).final;
    FilterAccounted(cfg, s0, lines, health);
    HealthyRunClaimsEveryKey(cfg, s0, lines, health);
    var added := s.out[|s0.out|..];
    forall k | k in KeysOf(cfg, added)
      ensures k !in s0.claimed
    {
      var r :| r in added && DeriveKey(cfg, r).Some? && DeriveKey(cfg, r).value == k;
    }
  }

  /** A run over input whose keys are all in the table forwards nothing and
      leaves the table as it was, whatever the store's failures (assuming
      lookups see the table's rows). */
  lemma {:induction false} ClaimedInputForwardsNothing(cfg: Config, s0: GateState, lines: seq<Line>, health: nat -> StoreHealth)
    requires InputKeys(cfg, lines) <= s0.claimed
    ensures var t := Filter(cfg, s0, lines, health);
      t.final.out == s0.out && t.final.claimed == s0.claimed &&
      forall i :: 0 <= i < |lines| ==> t.outcomes[i] != Forwarded
    decreases |lines|
  {
    if lines != [] {
      var n := |lines| - 1;
      if lines[n].Decoded? {
        KeysOfAppend(cfg, DecodedRecords(lines[..n]), lines[n].rec);
      }
      ClaimedInputForwardsNothing(cfg, s0, lines[..n], health);
    }
  }

  /** Re-running the filter over input a healthy run has already processed
      forwards nothing. */
  lemma RerunForwardsNothing(cfg: Config, s0: GateState, lines: seq<Line>, first: nat -> StoreHealth, second: nat -> StoreHealth)
    requires Healthy(first, |lines|)
    ensures var s1 := Filter(cfg, s0, lines, first).final;
      var t2 := Filter(cfg, s1, lines, second);
      t2.final.out == s1.out && t2.final.claimed == s1.claimed &&
      forall i :: 0 <= i < |lines| ==> t2.outcomes[i] != Forwarded
  {
    HealthyRunClaimsEveryKey(cfg, s0, lines, first);
    ClaimedInputForwardsNothing(cfg, Filter(cfg, s0, lines, first).final, lines, second);
  }
}
