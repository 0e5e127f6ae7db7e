/** The durable send-acceptance ledger: per client nonce, the digest of the wire input and the
  * acceptance state, kept in a file across restarts.
  *
  * Operations run one at a time, and the file is one value that is written and read whole.
  */
module AcceptanceLedger {
  import opened Prelude

  datatype AcceptanceState = Pending | Accepted | Rejected

  datatype Record = Record(slot: string, digest: string, state: AcceptanceState, createdAt: int, updatedAt: int,
      error: Option<string>)

  type Records = map<string, Record>

  datatype Admission = Admitted(record: Record) | Duplicate(record: Record) | DigestMismatch(record: Record)

  /** What happened to nonces, oldest first. */
  datatype Event = First(nonce: string, digest: string) | Cleared(nonce: string)

  /** `file` is what is on disk, `None` before the first write; `log` is a history that no
    * operation reads. */
  datatype Ledger = Ledger(records: Records, loaded: bool, file: Option<Records>, log: seq<Event>)

  const EMPTY := Ledger(map[], false, None, [])

  datatype Op =
    | Admit(slot: string, nonce: string, digest: string, now: int)
    | MarkAccepted(nonce: string, now: int)
    | MarkRejected(nonce: string, message: string, now: int)
    | Clear(nonce: string)
    | Restart

  function Load(l: Ledger): Ledger {
    if l.loaded then l
    else l.(loaded := true, records := if l.file.Some? then l.records + l.file.value else l.records)
  }

  function Persist(l: Ledger): Ledger {
    l.(file := Some(l.records))
  }

  function AdmissionFor(l: Ledger, nonce: string, slot: string, digest: string, now: int): Admission {
    var r := Load(l).records;
    if nonce in r then
      if r[nonce].digest != digest then DigestMismatch(r[nonce]) else Duplicate(r[nonce])
    else Admitted(Record(slot, digest, Pending, now, now, None))
  }

  /** A later acceptance keeps the message of an earlier rejection. */
  function Marked(r: Record, s: AcceptanceState, error: Option<string>, now: int): Record {
    r.(state := s, updatedAt := now, error := if error.Some? then error else r.error)
  }

  function Mark(l: Ledger, nonce: string, s: AcceptanceState, error: Option<string>, now: int): Ledger {
    if nonce !in l.records then l
    else Persist(l.(records := l.records[nonce := Marked(l.records[nonce], s, error, now)]))
  }

  function Apply(l: Ledger, op: Op): Ledger {
    match op
    case Admit(slot, nonce, digest, now) =>
      var a := AdmissionFor(l, nonce, slot, digest, now);
      var p := Load(l);
      if !a.Admitted? then p
      else Persist(p.(records := p.records[nonce := a.record], log := l.log + [First(nonce, digest)]))
    case MarkAccepted(nonce, now) => Mark(l, nonce, Accepted, None, now)
    case MarkRejected(nonce, message, now) => Mark(l, nonce, Rejected, Some(message), now)
    case Clear(nonce) => Persist(l.(records := l.records - {nonce}, log := l.log + [Cleared(nonce)]))
    case Restart => l.(records := map[], loaded := false)
  }

  function Run(l: Ledger, ops: seq<Op>): Ledger
    decreases |ops|
  {
    if ops == [] then l else Run(Apply(l, ops[0]), ops[1..])
  }

  /** No `clear` reaches the ledger before it was first loaded. */
  predicate ClearsAfterLoad(l: Ledger, ops: seq<Op>)
    decreases |ops|
  {
    ops == [] || ((ops[0].Clear? ==> l.loaded) && ClearsAfterLoad(Apply(l, ops[0]), ops[1..]))
  }

  // ---------------------------------------------------------------- meaning

  /** The digest under which a nonce was first seen since it was last cleared. */
  function Standing(log: seq<Event>, nonce: string): Option<string> {
    if log == [] then None
    else if Last(log).nonce != nonce then Standing(Front(log), nonce)
    else if Last(log).First? then Some(Last(log).digest) else None
  }

  lemma StandingSnoc(log: seq<Event>, e: Event, nonce: string)
    ensures Standing(log + [e], nonce) ==
      if e.nonce != nonce then Standing(log, nonce) else if e.First? then Some(e.digest) else None
  {
    assert Front(log + [e]) == log;
  }

  /** What the next `load` or the current memory would know. */
  function Known(l: Ledger): Records {
    if l.loaded then l.records else if l.file.Some? then l.file.value else map[]
  }

  function DigestOf(r: Records, nonce: string): Option<string> {
    if nonce in r then Some(r[nonce].digest) else None
  }

  ghost predicate Faithful(l: Ledger) {
    && (!l.loaded ==> l.records == map[])
    && (l.loaded && l.file.Some? ==> l.file.value == l.records)
    && (l.loaded && l.file.None? ==> l.records == map[])
    && (forall n :: DigestOf(Known(l), n) == Standing(l.log, n))
  }

  lemma FaithfulStep(l: Ledger, op: Op)
    requires Faithful(l) && (op.Clear? ==> l.loaded)
    ensures Faithful(Apply(l, op))
  {
    hide Standing;
    var l' := Apply(l, op);
    assert l.file.Some? ==> map[] + l.file.value == l.file.value;
    forall n
      ensures DigestOf(Known(l'), n) == Standing(l'.log, n)
    {
      assert DigestOf(Known(l), n) == Standing(l.log, n);
      if l'.log != l.log {
        StandingSnoc(l.log, Last(l'.log), n);
      }
    }
  }

  lemma {:induction false} FaithfulRun(l: Ledger, ops: seq<Op>)
    requires Faithful(l) && ClearsAfterLoad(l, ops)
    ensures Faithful(Run(l, ops))
    decreases |ops|
  {
    if ops != [] {
      FaithfulStep(l, ops[0]);
      FaithfulRun(Apply(l, ops[0]), ops[1..]);
    }
  }

  lemma EmptyIsFaithful()
    ensures Faithful(EMPTY)
  {
  }

  /** After any run in which no `clear` precedes the first load, across any number of restarts,
    * an admission is first sight exactly when the nonce was not seen since it was last cleared,
    * and otherwise compares the digest with the one it was first seen with. */
  lemma AdmissionMeansFirstSight(ops: seq<Op>, slot: string, nonce: string, digest: string, now: int)
    requires ClearsAfterLoad(EMPTY, ops)
    ensures
      var l := Run(EMPTY, ops);
      match Standing(l.log, nonce)
      case None => AdmissionFor(l, nonce, slot, digest, now).Admitted?
      case Some(d) =>
        var a := AdmissionFor(l, nonce, slot, digest, now);
        a.record.digest == d && (if d == digest then a.Duplicate? else a.DigestMismatch?)
  {
    EmptyIsFaithful();
    FaithfulRun(EMPTY, ops);
    var l := Run(EMPTY, ops);
    assert l.file.Some? ==> map[] + l.file.value == l.file.value;
    assert DigestOf(Known(l), nonce) == Standing(l.log, nonce);
  }

  /** Between two first sights of a nonce there is a clear of it. */
  ghost predicate ClearedBetween(log: seq<Event>) {
    forall i, j :: 0 <= i < j < |log| && log[i].First? && log[j].First? && log[i].nonce == log[j].nonce ==>
      exists k :: i < k < j && log[k] == Cleared(log[i].nonce)
  }

  lemma {:induction false} StandingAfterFirst(log: seq<Event>, i: nat)
    requires i < |log| && log[i].First?
    requires forall k :: i < k < |log| ==> log[k] != Cleared(log[i].nonce)
    ensures Standing(log, log[i].nonce).Some?
    decreases |log|
  {
    if i < |log| - 1 {
      StandingAfterFirst(Front(log), i);
    }
  }

  lemma ClearedBetweenStep(l: Ledger, op: Op)
    requires Faithful(l) && ClearedBetween(l.log) && (op.Clear? ==> l.loaded)
    ensures ClearedBetween(Apply(l, op).log)
  {
    var log' := Apply(l, op).log;
    if log' != l.log {
      assert log' == l.log + [Last(log')];
      var j := |l.log|;
      forall i | 0 <= i < j && log'[i].First? && log'[j].First? && log'[i].nonce == log'[j].nonce
        ensures exists k :: i < k < j && log'[k] == Cleared(log'[i].nonce)
      {
        var n := log'[i].nonce;
        assert DigestOf(Known(l), n) == Standing(l.log, n);
        assert l.file.Some? ==> map[] + l.file.value == l.file.value;
        if forall k :: i < k < j ==> l.log[k] != Cleared(n) {
          StandingAfterFirst(l.log, i);
          assert false;
        }
        var k :| i < k < j && l.log[k] == Cleared(n);
        assert log'[k] == Cleared(n);
      }
      forall a, b | 0 <= a < b < j && log'[a].First? && log'[b].First? && log'[a].nonce == log'[b].nonce
        ensures exists k :: a < k < b && log'[k] == Cleared(log'[a].nonce)
      {
        assert l.log[a].nonce == l.log[b].nonce;
        var k :| a < k < b && l.log[k] == Cleared(l.log[a].nonce);
        assert log'[k] == Cleared(log'[a].nonce);
      }
    }
  }

  lemma {:induction false} ClearedBetweenRun(l: Ledger, ops: seq<Op>)
    requires Faithful(l) && ClearedBetween(l.log) && ClearsAfterLoad(l, ops)
    ensures ClearedBetween(Run(l, ops).log)
    decreases |ops|
  {
    if ops != [] {
      FaithfulStep(l, ops[0]);
      ClearedBetweenStep(l, ops[0]);
      ClearedBetweenRun(Apply(l, ops[0]), ops[1..]);
    }
  }

  /** A nonce is accepted for dispatch at most once between clears, across restarts. */
  lemma AcceptedOnceBetweenClears(ops: seq<Op>)
    requires ClearsAfterLoad(EMPTY, ops)
    ensures ClearedBetween(Run(EMPTY, ops).log)
  {
    EmptyIsFaithful();
    ClearedBetweenRun(EMPTY, ops);
  }

  /** The condition on `clear` is the right one: a clear keeps every other nonce exactly when
    * the ledger was loaded, or the file held no other nonce. */
  lemma ClearKeepsOthersExactlyWhen(l: Ledger, nonce: string)
    requires Faithful(l)
    ensures Known(Apply(Apply(l, Clear(nonce)), Restart)) == Known(l) - {nonce} <==>
      l.loaded || Known(l).Keys <= {nonce}
  {
    var after := Known(Apply(Apply(l, Clear(nonce)), Restart));
    assert after == l.records - {nonce};
    if !l.loaded {
      assert after == map[];
      if n :| n in Known(l) && n != nonce {
        assert n in Known(l) - {nonce};
      } else if Known(l).Keys <= {nonce} {
        assert (Known(l) - {nonce}).Keys == {};
      }
    }
  }

  /** After a restart, clearing one nonce before anything was admitted wipes the file, and
    * another nonce is accepted a second time. */
  lemma ClearBeforeLoadForgets(slot: string, digest: string, now: int)
    ensures
      var ops := [Admit(slot, "a", digest, now), Restart, Clear("b"), Admit(slot, "a", digest, now)];
      Run(EMPTY, ops).log == [First("a", digest), Cleared("b"), First("a", digest)]
  {
    var l1 := Apply(EMPTY, Admit(slot, "a", digest, now));
    var l2 := Apply(l1, Restart);
    var l3 := Apply(l2, Clear("b"));
    var l4 := Apply(l3, Admit(slot, "a", digest, now));
    assert l3.file == Some(map[]);
    assert Run(l3, [Admit(slot, "a", digest, now)]) == Run(l4, []);
    assert Run(l2, [Clear("b"), Admit(slot, "a", digest, now)]) == Run(l3, [Admit(slot, "a", digest, now)]);
    assert Run(l1, [Restart, Clear("b"), Admit(slot, "a", digest, now)]) ==
        Run(l2, [Clear("b"), Admit(slot, "a", digest, now)]);
  }

  lemma {:induction false} StandingIsStable(l: Ledger, ops: seq<Op>, nonce: string)
    requires Faithful(l) && ClearsAfterLoad(l, ops) && Standing(l.log, nonce).Some?
    requires forall op :: op in ops ==> op != Clear(nonce)
    ensures Standing(Run(l, ops).log, nonce) == Standing(l.log, nonce)
    decreases |ops|
  {
    if ops != [] {
      var l' := Apply(l, ops[0]);
      FaithfulStep(l, ops[0]);
      assert ops[0] in ops && forall op :: op in ops[1..] ==> op in ops;
      assert DigestOf(Known(l), nonce) == Standing(l.log, nonce);
      assert l.file.Some? ==> map[] + l.file.value == l.file.value;
      if l'.log != l.log {
        StandingSnoc(l.log, Last(l'.log), nonce);
      }
      StandingIsStable(l', ops[1..], nonce);
    }
  }

  /** A recorded nonce keeps its record's digest while it is not cleared, whether the record is in
    * memory or, after a restart, still in the file. */
  lemma DigestIsStable(l: Ledger, ops: seq<Op>, nonce: string)
    requires Faithful(l) && ClearsAfterLoad(l, ops) && nonce in Known(l)
    requires forall op :: op in ops ==> op != Clear(nonce)
    ensures DigestOf(Known(Run(l, ops)), nonce) == DigestOf(Known(l), nonce)
    ensures Standing(Run(l, ops).log, nonce) == Standing(l.log, nonce) == DigestOf(Known(l), nonce)
  {
    assert DigestOf(Known(l), nonce) == Standing(l.log, nonce);
    StandingIsStable(l, ops, nonce);
    FaithfulRun(l, ops);
    assert DigestOf(Known(Run(l, ops)), nonce) == Standing(Run(l, ops).log, nonce);
  }

  // ---------------------------------------------------------------- the record of one nonce

  /** What an operation makes of one nonce's record, wherever it is kept: marks reach it only while the
    * ledger is loaded, a restart leaves it alone. */
  function RecordAfter(r: Option<Record>, op: Op, nonce: string, loaded: bool): Option<Record> {
    match op
    case Admit(slot, n, digest, now) =>
      if n == nonce && r.None? then Some(Record(slot, digest, Pending, now, now, None)) else r
    case MarkAccepted(n, now) =>
      if n == nonce && loaded && r.Some? then Some(r.value.(state := Accepted, updatedAt := now)) else r
    case MarkRejected(n, message, now) =>
      if n == nonce && loaded && r.Some? then
        Some(r.value.(state := Rejected, updatedAt := now, error := Some(message)))
      else r
    case Clear(n) => if n == nonce then None else r
    case Restart => r
  }

  /** Something was admitted since the last restart. */
  predicate LoadedBy(ops: seq<Op>) {
    ops != [] && (Last(ops).Admit? || (!Last(ops).Restart? && LoadedBy(Front(ops))))
  }

  /** The record that the operations leave of a nonce. */
  function RecordOf(ops: seq<Op>, nonce: string): Option<Record> {
    if ops == [] then None
    else RecordAfter(RecordOf(Front(ops), nonce), Last(ops), nonce, LoadedBy(Front(ops)))
  }

  function Lookup(r: Records, nonce: string): Option<Record> {
    if nonce in r then Some(r[nonce]) else None
  }

  lemma RecordStep(l: Ledger, done: seq<Op>, op: Op, nonce: string)
    requires Faithful(l) && (op.Clear? ==> l.loaded) && l.loaded == LoadedBy(done)
    requires Lookup(Known(l), nonce) == RecordOf(done, nonce)
    ensures Lookup(Known(Apply(l, op)), nonce) == RecordOf(done + [op], nonce)
    ensures Apply(l, op).loaded == LoadedBy(done + [op])
  {
    assert Front(done + [op]) == done;
    assert l.file.Some? ==> map[] + l.file.value == l.file.value;
  }

  lemma {:induction false} RecordRun(l: Ledger, done: seq<Op>, ops: seq<Op>, nonce: string)
    requires Faithful(l) && ClearsAfterLoad(l, ops) && l.loaded == LoadedBy(done)
    requires Lookup(Known(l), nonce) == RecordOf(done, nonce)
    ensures Lookup(Known(Run(l, ops)), nonce) == RecordOf(done + ops, nonce)
    decreases |ops|
  {
    if ops == [] {
      assert done + ops == done;
    } else {
      FaithfulStep(l, ops[0]);
      RecordStep(l, done, ops[0], nonce);
      RecordRun(Apply(l, ops[0]), done + [ops[0]], ops[1..], nonce);
      assert done + [ops[0]] + ops[1..] == done + ops;
    }
  }

  /** Across restarts, and whether it is in memory or still in the file, the ledger's record of a nonce is
    * what the operations on that nonce make of it. */
  lemma RecordTellsItsOperations(ops: seq<Op>, nonce: string)
    requires ClearsAfterLoad(EMPTY, ops)
    ensures Lookup(Known(Run(EMPTY, ops)), nonce) == RecordOf(ops, nonce)
  {
    EmptyIsFaithful();
    RecordRun(EMPTY, [], ops, nonce);
    assert [] + ops == ops;
  }

  // ---------------------------------------------------------------- the ledger object

  /** The ledger of one process; `file` is the disk, which survives `Reboot`. */
  class AcceptanceLedger {
    var records: Records
    var loaded: bool
    var file: Option<Records>
    ghost var log: seq<Event>

    ghost function View(): Ledger
      reads this
    {
      Ledger(records, loaded, file, log)
    }

    constructor ()
      ensures View() == EMPTY
    {
      records, loaded, file, log := map[], false, None, [];
    }

    method LoadFile()
      modifies this`records, this`loaded
      ensures View() == Load(old(View()))
    {
      if loaded {
        return;
      }
      loaded := true;
      if file.Some? {
        records := records + file.value;
      }
    }

    method AdmitSend(slot: string, nonce: string, digest: string, now: int) returns (result: Admission)
      modifies this
      ensures result == old(AdmissionFor(View(), nonce, slot, digest, now))
      ensures View() == Apply(old(View()), Admit(slot, nonce, digest, now))
    {
      LoadFile();
      if nonce in records {
        if records[nonce].digest != digest {
          return DigestMismatch(records[nonce]);
        }
        return Duplicate(records[nonce]);
      }
      var record := Record(slot, digest, Pending, now, now, None);
      records := records[nonce := record];
      log := log + [First(nonce, digest)];
      file := Some(records);
      result := Admitted(record);
    }

    method MarkAcceptedNonce(nonce: string, now: int)
      modifies this
      ensures View() == Apply(old(View()), MarkAccepted(nonce, now))
    {
      if nonce !in records {
        return;
      }
      records := records[nonce := records[nonce].(state := Accepted, updatedAt := now)];
      file := Some(records);
    }

    method MarkRejectedNonce(nonce: string, message: string, now: int)
      modifies this
      ensures View() == Apply(old(View()), MarkRejected(nonce, message, now))
    {
      if nonce !in records {
        return;
      }
      records := records[nonce := records[nonce].(state := Rejected, error := Some(message), updatedAt := now)];
      file := Some(records);
    }

    method ClearNonce(nonce: string)
      modifies this
      ensures View() == Apply(old(View()), Clear(nonce))
    {
      records := records - {nonce};
      log := log + [Cleared(nonce)];
      file := Some(records);
    }

    method Reboot()
      modifies this
      ensures View() == Apply(old(View()), Restart)
    {
      records, loaded := map[], false;
    }
  }
}
