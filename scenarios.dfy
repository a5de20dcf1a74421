/** Concrete runs of the filter on small inputs, with a healthy store. */
module DedupScenarios {
  import opened GoValues
  import HexEncoding
  import opened KeyDeriver
  import opened DedupGate

  const AlwaysHealthy: nat -> StoreHealth := (i: nat) => StoreHealth(true, true)

  const Empty := GateState({}, [], [], [])

  /** The record {"id": s}. */
  function IdRecord(s: GoString): Record {
    map[DefaultField := Str(s)]
  }

  /** Input {"id":"a"} {"id":"b"} {"id":"a"} with `-k id` and no hashing into an
      empty table: the first two are written out, the third is a duplicate,
      and the table ends with the rows "a" and "b". */
  lemma RepeatedIdIsDropped(sprint: Value -> GoString, sha256: GoString -> Digest)
    requires PrintsScalarsLikeFmt(sprint)
    ensures var cfg := Config(DefaultField, false, sprint, sha256);
      var a, b := IdRecord(Ascii("a")), IdRecord(Ascii("b"));
      var t := Filter(cfg, Empty, [Decoded(a), Decoded(b), Decoded(a)], AlwaysHealthy);
      t.outcomes == [Forwarded, Forwarded, Duplicate] &&
      t.final.out == [a, b] && t.final.claimed == {Ascii("a"), Ascii("b")}
  {
    var cfg := Config(DefaultField, false, sprint, sha256);
    var a, b := IdRecord(Ascii("a")), IdRecord(Ascii("b"));
    var lines := [Decoded(a), Decoded(b), Decoded(a)];
    assert Ascii("a") != Ascii("b") by {
      assert Ascii("a")[0] != Ascii("b")[0];
    }
    assert DeriveKey(cfg, a) == Some(Ascii("a"));
    assert DeriveKey(cfg, b) == Some(Ascii("b"));
    var ok := StoreHealth(true, true);
    assert AlwaysHealthy(0) == ok && AlwaysHealthy(1) == ok && AlwaysHealthy(2) == ok;
    assert lines[..1][..0] == [] && lines[..2][..1] == lines[..1] && lines[..2] == lines[..3][..2];
    var s1 := Step(cfg, Empty, Decoded(a), ok);
    assert s1.outcome == Forwarded && s1.next.claimed == {Ascii("a")} && s1.next.out == [a];
    assert Filter(cfg, Empty, lines[..1], AlwaysHealthy) == Trace(s1.next, [Forwarded]);
    var s2 := Step(cfg, s1.next, Decoded(b), ok);
    assert s2.outcome == Forwarded && s2.next.claimed == {Ascii("a"), Ascii("b")} && s2.next.out == [a, b];
    assert Filter(cfg, Empty, lines[..2], AlwaysHealthy) == Trace(s2.next, [Forwarded, Forwarded]);
    var s3 := Step(cfg, s2.next, Decoded(a), ok);
    assert s3.outcome == Duplicate && s3.next.claimed == s2.next.claimed && s3.next.out == [a, b];
    assert lines[..3] == lines;
  }

  /** The same input with `-k name`: no record has the field, nothing is
      written out, the store is never called, and one diagnostic is printed per
      record. */
  lemma AbsentFieldForwardsNothing(sprint: Value -> GoString, sha256: GoString -> Digest)
    ensures var cfg := Config(Ascii("name"), false, sprint, sha256);
      var a, b := IdRecord(Ascii("a")), IdRecord(Ascii("b"));
      var t := Filter(cfg, Empty, [Decoded(a), Decoded(b), Decoded(a)], AlwaysHealthy);
      t.outcomes == [MissingField, MissingField, MissingField] &&
      t.final.out == [] && t.final.claimed == {} && t.final.calls == [] &&
      t.final.diags == [FieldNotFound(Ascii("name")), FieldNotFound(Ascii("name")), FieldNotFound(Ascii("name"))]
  {
    var cfg := Config(Ascii("name"), false, sprint, sha256);
    var a, b := IdRecord(Ascii("a")), IdRecord(Ascii("b"));
    var lines := [Decoded(a), Decoded(b), Decoded(a)];
    assert Ascii("name") != DefaultField by {
      assert |Ascii("name")| != |DefaultField|;
    }
    assert DeriveKey(cfg, a) == None && DeriveKey(cfg, b) == None;
    var ok := StoreHealth(true, true);
    var miss := FieldNotFound(Ascii("name"));
    assert AlwaysHealthy(0) == ok && AlwaysHealthy(1) == ok && AlwaysHealthy(2) == ok;
    assert lines[..1][..0] == [] && lines[..2][..1] == lines[..1] && lines[..2] == lines[..3][..2];
    assert Filter(cfg, Empty, lines[..1], AlwaysHealthy) == Trace(Empty.(diags := [miss]), [MissingField]);
    assert Filter(cfg, Empty, lines[..2], AlwaysHealthy) ==
      Trace(Empty.(diags := [miss, miss]), [MissingField, MissingField]);
    assert lines[..3] == lines;
  }

  /** With `-hashkey`, {"id":"a"} claims the hex digest of "a" and is written
      out as it came in. */
  lemma HashedKeyIsStoredRecordUnchanged(sprint: Value -> GoString, sha256: GoString -> Digest)
    requires PrintsScalarsLikeFmt(sprint)
    ensures var cfg := Config(DefaultField, true, sprint, sha256);
      var a := IdRecord(Ascii("a"));
      var t := Filter(cfg, Empty, [Decoded(a)], AlwaysHealthy);
      t.outcomes == [Forwarded] && t.final.out == [a] &&
      t.final.claimed == {HexEncoding.Hex(sha256(Ascii("a")))} &&
      Ascii("a") !in t.final.claimed
  {
    var cfg := Config(DefaultField, true, sprint, sha256);
    var a := IdRecord(Ascii("a"));
    assert [Decoded(a)][..0] == [];
    assert DeriveKey(cfg, a) == Some(HexEncoding.Hex(sha256(Ascii("a"))));
  }
}
