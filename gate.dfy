/** The dedup gate: the body of the record loop in main.go:80-124, and the loop
    itself. The OCI NoSQL table is modelled as the set of keys that have a row;
    whether `GetRow` or `UpdateRow` fails on a given record is an input. */
module DedupGate {
  import opened GoValues
  import opened KeyDeriver

  /** What happened to one input line. */
  datatype Outcome =
    | Forwarded     // key written, record re-encoded to the output
    | Duplicate     // GetRow found a row for the key
    | MissingField  // the record lacks the configured field
    | LookupFailed  // GetRow returned an error
    | WriteFailed   // UpdateRow returned an error
    | Malformed     // the line did not decode to a JSON object

  /** Whether the store's two calls succeed while one record is processed. */
  datatype StoreHealth = StoreHealth(lookupOk: bool, writeOk: bool)

  /** A round trip to the store, with the key it carries. */
  datatype StoreCall = GetRow(key: GoString) | UpdateRow(key: GoString)

  /** A line written to standard error, by kind; the error text of a failed
      decode or write is not modelled. */
  datatype Diagnostic = DecodeError | FieldNotFound(field: GoString) | UpdateError

  /** Everything the loop changes: the keys with a row in the table, the
      records written to standard output, the store calls issued and the
      diagnostics printed. */
  datatype GateState = GateState(
    claimed: set<GoString>,
    out: seq<Record>,
    calls: seq<StoreCall>,
    diags: seq<Diagnostic>)

  datatype Transition = Transition(outcome: Outcome, next: GateState)

  /** One iteration of the loop (main.go:81-123). A record is forwarded exactly
      when it decoded, has a key, the lookup succeeds without finding a row and
      the write succeeds; only then do the table and the output change, by
      that key and that unmodified record. */
  function Step(cfg: Config, s: GateState, line: Line, h: StoreHealth): (t: Transition)
    ensures t.outcome == Forwarded <==>
      line.Decoded? && DeriveKey(cfg, line.rec).Some? && h.lookupOk &&
      DeriveKey(cfg, line.rec).value !in s.claimed && h.writeOk
    ensures t.next.claimed ==
      s.claimed + (if t.outcome == Forwarded then {DeriveKey(cfg, line.rec).value} else {})
    ensures t.next.out == s.out + (if t.outcome == Forwarded then [line.rec] else [])
  {
    match line
    case Undecodable =>
      Transition(Malformed, s.(diags := s.diags + [DecodeError]))
    case Decoded(rec) =>
      match DeriveKey(cfg, rec)
      case None =>
        Transition(MissingField, s.(diags := s.diags + [FieldNotFound(cfg.field)]))
      case Some(key) =>
        var looked := s.calls + [GetRow(key)];
        if !h.lookupOk then
          Transition(LookupFailed, s.(calls := looked))
        else if key in s.claimed then
          Transition(Duplicate, s.(calls := looked))
        else if !h.writeOk then
          Transition(WriteFailed, s.(calls := looked + [UpdateRow(key)],
                                     diags := s.diags + [UpdateError]))
        else
          Transition(Forwarded, s.(claimed := s.claimed + {key},
                                   out := s.out + [rec],
                                   calls := looked + [UpdateRow(key)]))
  }

  datatype Trace = Trace(final: GateState, outcomes: seq<Outcome>)

  /** The whole loop over the decoded input lines; line i meets the store in
      the state `health(i)`. */
  function Filter(cfg: Config, s: GateState, lines: seq<Line>, health: nat -> StoreHealth): (t: Trace)
    ensures |t.outcomes| == |lines|
    decreases |lines|
  {
    if lines == [] then Trace(s, [])
    else
      var n := |lines| - 1;
      var before := Filter(cfg, s, lines[..n], health);
      var step := Step(cfg, before.final, lines[n], health(n));
      Trace(step.next, before.outcomes + [step.outcome])
  }

  /** The process: its configuration, the table it writes to and the streams it
      writes. The gate keeps no state of its own across records beyond these. */
  class Gate {
    const cfg: Config
    var claimed: set<GoString>
    var out: seq<Record>
    var calls: seq<StoreCall>
    var diags: seq<Diagnostic>

    function State(): GateState
      reads this
    {
      GateState(claimed, out, calls, diags)
    }

    /** A gate over a table that already holds the rows `claimed`. */
    constructor (cfg: Config, claimed: set<GoString>)
      ensures this.cfg == cfg
      ensures State() == GateState(claimed, [], [], [])
    {
      this.cfg := cfg;
      this.claimed := claimed;
      out, calls, diags := [], [], [];
    }

    /** One pass of the loop body, with its early `continue`s as returns. */
    method Process(line: Line, h: StoreHealth) returns (o: Outcome)
      modifies this
      ensures Transition(o, State()) == Step(cfg, old(State()), line, h)
      // a record is written out only after its key was written, and unchanged
      ensures o == Forwarded <==>
        line.Decoded? && DeriveKey(cfg, line.rec).Some? && h.lookupOk &&
        DeriveKey(cfg, line.rec).value !in old(claimed) && h.writeOk
      ensures o == Forwarded ==>
        var key := DeriveKey(cfg, line.rec).value;
        claimed == old(claimed) + {key} && out == old(out) + [line.rec] &&
        calls == old(calls) + [GetRow(key), UpdateRow(key)]
      // every other outcome leaves the table and the output alone
      ensures o != Forwarded ==> claimed == old(claimed) && out == old(out)
      // no key, no store call
      ensures o == Malformed || o == MissingField ==> calls == old(calls)
      ensures o == MissingField <==> line.Decoded? && cfg.field !in line.rec
      // a failed or positive lookup is followed by no write, and a failed
      // lookup prints nothing
      ensures o == LookupFailed || o == Duplicate ==>
        calls == old(calls) + [GetRow(DeriveKey(cfg, line.rec).value)]
      ensures o == LookupFailed || o == Duplicate ==> diags == old(diags)
      ensures o == WriteFailed ==>
        diags == old(diags) + [UpdateError]
    {
      if line.Undecodable? {
        diags := diags + [DecodeError];
        return Malformed;
      }
      var rec := line.rec;
      var key := DeriveKey(cfg, rec);
      if key.None? {
        diags := diags + [FieldNotFound(cfg.field)];
        return MissingField;
      }
      calls := calls + [GetRow(key.value)];
      if !h.lookupOk {
        return LookupFailed;
      }
      if key.value in claimed {
        return Duplicate;
      }
      calls := calls + [UpdateRow(key.value)];
      if !h.writeOk {
        diags := diags + [UpdateError];
        return WriteFailed;
      }
      claimed := claimed + {key.value};
      out := out + [rec];
      o := Forwarded;
    }

    /** The `for scanner.Scan()` loop over every input line. */
    method Run(lines: seq<Line>, health: nat -> StoreHealth) returns (outcomes: seq<Outcome>)
      modifies this
      ensures Trace(State(), outcomes) == Filter(cfg, old(State()), lines, health)
    {
      ghost var start := State();
      outcomes := [];
      var i := 0;
      while i < |lines|
        invariant 0 <= i <= |lines|
        invariant Trace(State(), outcomes) == Filter(cfg, start, lines[..i], health)
      {
        assert lines[..i + 1][..i] == lines[..i];
        var o := Process(lines[i], health(i));
        outcomes := outcomes + [o];
        i := i + 1;
      }
      assert lines[..|lines|] == lines;
    }
  }
}
