/** Key derivation (main.go:88-96): look up the configured field, stringify its
    value with `fmt.Sprint`, and, when `-hashkey` is set, replace that string by
    the lower-case hex of its SHA-256 digest. */
module KeyDeriver {
  import opened GoValues
  import opened HexEncoding

  /** A SHA-256 digest: 32 bytes. */
  type Digest = d: seq<byte> | |d| == 32 witness seq(32, _ => 0 as byte)

  /** The default of the `-k` flag (main.go:36). */
  const DefaultField: GoString := Ascii("id")

  /** The settings the loop reads, with the two library functions it calls.
      `sprint` stands for `fmt.Sprint` on a decoded value and `sha256` for
      `sha256.Sum256`; both are deterministic functions whose internals are not
      part of this model. */
  datatype Config = Config(
    field: GoString,
    hashKey: bool,
    sprint: Value -> GoString,
    sha256: GoString -> Digest)

  /** The dedup key of a record, or None when the record lacks the field. */
  function DeriveKey(cfg: Config, rec: Record): (r: Option<GoString>)
    ensures r.None? <==> cfg.field !in rec
    ensures r.Some? && cfg.hashKey ==>
      |r.value| == 64 && forall i :: 0 <= i < 64 ==> IsLowerHexDigit(r.value[i])
  {
    if cfg.field !in rec then None
    else
      var text := cfg.sprint(rec[cfg.field]);
      if cfg.hashKey then Some(Hex(cfg.sha256(text))) else Some(text)
  }

  /** Two records that agree on the configured field get the same key. */
  lemma KeyDependsOnlyOnField(cfg: Config, r1: Record, r2: Record)
    requires cfg.field in r1 && cfg.field in r2 && r1[cfg.field] == r2[cfg.field]
    ensures DeriveKey(cfg, r1).Some? && DeriveKey(cfg, r1) == DeriveKey(cfg, r2)
  {
  }

  /** Without hashing, two records are duplicates of each other exactly when
      their field values print the same. */
  lemma PlainKeysAgreeIffPrintedValuesAgree(cfg: Config, r1: Record, r2: Record)
    requires !cfg.hashKey && cfg.field in r1 && cfg.field in r2
    ensures DeriveKey(cfg, r1) == DeriveKey(cfg, r2) <==>
      cfg.sprint(r1[cfg.field]) == cfg.sprint(r2[cfg.field])
  {
  }

  /** With hashing the key is the hex of the digest of the printed value, and
      two keys agree exactly when the two digests agree: the hex step adds no
      collisions of its own. */
  lemma HashedKeysAgreeIffDigestsAgree(cfg: Config, r1: Record, r2: Record)
    requires cfg.hashKey && cfg.field in r1 && cfg.field in r2
    ensures DeriveKey(cfg, r1) == Some(Hex(cfg.sha256(cfg.sprint(r1[cfg.field]))))
    ensures DeriveKey(cfg, r1) == DeriveKey(cfg, r2) <==>
      cfg.sha256(cfg.sprint(r1[cfg.field])) == cfg.sha256(cfg.sprint(r2[cfg.field]))
  {
    HexInjective(cfg.sha256(cfg.sprint(r1[cfg.field])), cfg.sha256(cfg.sprint(r2[cfg.field])));
  }

  /** What `fmt.Sprint` prints for some of the values `json.Unmarshal`
      produces: nil as "<nil>", booleans as "true"/"false", strings as
      themselves, and the number 1 (a float64 with no fraction) as "1". The
      printing of other numbers is not pinned down. */
  ghost predicate PrintsScalarsLikeFmt(sprint: Value -> GoString) {
    && sprint(Null) == Ascii("<nil>")
    && sprint(Number(1.0)) == Ascii("1")
    && sprint(Bool(true)) == Ascii("true")
    && sprint(Bool(false)) == Ascii("false")
    && forall s :: sprint(Str(s)) == s
  }

  /** The key does not record the JSON type of the field: the boolean `true`
      and the string "true" get the same key, as do `null` and the string
      "<nil>", and the number 1 and the string "1", with or without hashing. */
  lemma KeysIgnoreJsonType(cfg: Config, r1: Record, r2: Record)
    requires PrintsScalarsLikeFmt(cfg.sprint)
    requires cfg.field in r1 && cfg.field in r2
    requires (r1[cfg.field] == Bool(true) && r2[cfg.field] == Str(Ascii("true")))
          || (r1[cfg.field] == Null && r2[cfg.field] == Str(Ascii("<nil>")))
          || (r1[cfg.field] == Number(1.0) && r2[cfg.field] == Str(Ascii("1")))
    ensures r1 != r2 && DeriveKey(cfg, r1) == DeriveKey(cfg, r2)
  {
  }
}
