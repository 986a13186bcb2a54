/** dev/agent/internal/rpcguard/guard.go: one signed transaction per request id, across crashes. */
module Requests {
  import opened Basics
  import opened Strings

  /** The stored record of a request, under the hash of its id (taken as collision-free). */
  datatype Attempt = Attempt(intent: string, tx: Bytes, hash: string, sequence: uint64, account: Option<uint64>)

  datatype Receipt = Receipt(hash: string, account: Option<uint64>, sequence: uint64)

  /** What is sent: everything the intent covers. */
  datatype Operation = Operation(signer: string, options: string, messages: Bytes)

  datatype Request = Request(id: string, op: Operation, account: uint64, sequence: uint64)

  /** Transactions as the chain reads them; hashes of intents and transactions. */
  datatype Codec = Codec(
    intentOf: Operation -> string, hashOf: Bytes -> string,
    signerOf: Bytes -> string, sequenceOf: Bytes -> uint64)

  /** The process may die at either of two moments that matter; later deaths only lose the acknowledgement. */
  datatype Crash = Never | BeforePut | AfterPut

  /** What the outside answers during one call. `signed`: the bytes that signing the operation yields now. */
  datatype World = World(
    keyOk: bool, encodeOk: bool, statusOk: bool, signed: Option<Bytes>, putOk: bool, crash: Crash,
    lookup: Option<Option<uint32>>,   // request failed, not found, or the code of the committed tx
    account: Option<uint64>)          // the sequence of the account, if the query succeeds

  datatype Outcome =
    | Submitted | Reconciled | Failed | TooLong | BadKey | Incomplete | Unreachable | OtherOperation | Corrupt
    | Finalized(code: uint32) | Unresolved | Died

  datatype Sent = Sent(id: string, tx: Bytes)

  /** The database, and every broadcast so far. */
  datatype State = State(records: map<string, Attempt>, sent: seq<Sent>)

  predicate Complete(r: Attempt) { r.intent != "" && r.hash != "" && r.tx != [] }

  function NewAttempt(c: Codec, r: Request, tx: Bytes): Attempt
  {
    Attempt(c.intentOf(r.op), tx, c.hashOf(tx), r.sequence, Some(r.account))
  }

  function Broadcast(s: State, id: string, tx: Bytes): State
  {
    s.(sent := s.sent + [Sent(id, tx)])
  }

  /** A request whose id is already bound. */
  function Resume(c: Codec, s: State, r: Request, w: World): (State, Outcome)
    requires r.id in s.records
  {
    var saved := s.records[r.id];
    if saved.intent != c.intentOf(r.op) then (s, OtherOperation)
    else if !EqualFold(saved.hash, c.hashOf(saved.tx)) then (s, Corrupt)
    else if w.lookup.None? then (s, Failed)
    else if w.lookup.value.Some? then
      (s, if w.lookup.value.value != 0 then Finalized(w.lookup.value.value) else Reconciled)
    else if w.account.None? then (s, Failed)
    else if w.account.value != saved.sequence then (s, Unresolved)
    else (Broadcast(s, r.id, saved.tx), Submitted)
  }

  /** A request with a new id: sign, store, and only then broadcast. */
  function Start(c: Codec, s: State, r: Request, w: World): (State, Outcome)
  {
    if w.signed.None? then (s, Failed)
    else if w.crash == BeforePut then (s, Died)
    else if !w.putOk then (s, Failed)
    else
      var stored := s.(records := s.records[r.id := NewAttempt(c, r, w.signed.value)]);
      if w.crash == AfterPut then (stored, Died) else (Broadcast(stored, r.id, w.signed.value), Submitted)
  }

  /** Send. Without an id nothing is stored and nothing is promised. */
  function Send(c: Codec, s: State, r: Request, w: World): (State, Outcome)
  {
    if r.id == "" then
      if w.signed.None? then (s, Failed) else (Broadcast(s, "", w.signed.value), Submitted)
    else if |r.id| > 200 then (s, TooLong)
    else if !w.keyOk then (s, BadKey)
    else if !w.encodeOk then (s, Failed)
    else if r.id in s.records && !Complete(s.records[r.id]) then (s, Incomplete)
    else if !w.statusOk then (s, Unreachable)
    else if r.id in s.records then Resume(c, s, r, w)
    else Start(c, s, r, w)
  }

  function ReceiptFor(s: State, id: string): Option<Receipt>
  {
    if id in s.records then Some(Receipt(s.records[id].hash, s.records[id].account, s.records[id].sequence)) else None
  }

  // ---- the session

  class Session {
    const codec: Codec
    var records: map<string, Attempt>
    var sent: seq<Sent>

    constructor (codec: Codec, records: map<string, Attempt>)
      ensures View() == State(records, []) && this.codec == codec
    {
      this.codec, this.records, this.sent := codec, records, [];
    }

    ghost function View(): State
      reads this
    {
      State(records, sent)
    }

    method Submit(id: string, tx: Bytes) returns (o: Outcome)
      modifies this
      ensures View() == Broadcast(old(View()), id, tx) && o == Submitted
    {
      sent := sent + [Sent(id, tx)];
      o := Submitted;
    }

    /** Send, one step after another; a crash leaves what the database holds by then. */
    method SendRequest(r: Request, w: World) returns (o: Outcome)
      modifies this
      ensures (View(), o) == Send(codec, old(View()), r, w)
    {
      if r.id == "" {
        if w.signed.None? { return Failed; }
        o := Submit("", w.signed.value);
        return;
      }
      if |r.id| > 200 { return TooLong; }
      if !w.keyOk { return BadKey; }
      if !w.encodeOk { return Failed; }
      var found := r.id in records;
      var saved := if found then records[r.id] else Attempt("", [], "", 0, None);
      if found && (saved.intent == "" || saved.hash == "" || |saved.tx| == 0) { return Incomplete; }
      if !w.statusOk { return Unreachable; }
      if saved.intent != "" {
        if saved.intent != codec.intentOf(r.op) { return OtherOperation; }
        if !EqualFold(saved.hash, codec.hashOf(saved.tx)) { return Corrupt; }
        if w.lookup.None? { return Failed; }
        if w.lookup.value.Some? {
          if w.lookup.value.value != 0 { return Finalized(w.lookup.value.value); }
          return Reconciled;
        }
        if w.account.None? { return Failed; }
        if w.account.value != saved.sequence { return Unresolved; }
      } else {
        if w.signed.None? { return Failed; }
        saved := Attempt(codec.intentOf(r.op), w.signed.value, codec.hashOf(w.signed.value), r.sequence, Some(r.account));
        if w.crash == BeforePut { return Died; }
        if !w.putOk { return Failed; }
        records := records[r.id := saved];
        if w.crash == AfterPut { return Died; }
      }
      o := Submit(r.id, saved.tx);
    }

    /** What a later caller may learn of a request. */
    method GetReceipt(id: string) returns (receipt: Option<Receipt>)
      ensures receipt == ReceiptFor(View(), id)
    {
      if id !in records { return None; }
      var saved := records[id];
      return Some(Receipt(saved.hash, saved.account, saved.sequence));
    }
  }

  // ---- the chain that the broadcasts may reach

  /** An account executes a transaction only at its own sequence. */
  datatype Ledger = Ledger(next: map<string, nat>, executed: seq<Bytes>)

  function NextSequence(l: Ledger, signer: string): nat { if signer in l.next then l.next[signer] else 0 }

  function Execute(c: Codec, l: Ledger, tx: Bytes): Ledger
  {
    var signer := c.signerOf(tx);
    if c.sequenceOf(tx) != NextSequence(l, signer) then l
    else Ledger(l.next[signer := NextSequence(l, signer) + 1], l.executed + [tx])
  }

  /** Clients send, crash and restart; the chain executes whatever anyone submits, as often as it is submitted. */
  datatype Step = Call(request: Request, world: World) | Block(tx: Bytes)

  datatype System = System(client: State, ledger: Ledger)

  function Apply(c: Codec, y: System, step: Step): System
  {
    match step
    case Call(r, w) => y.(client := Send(c, y.client, r, w).0)
    case Block(tx) => y.(ledger := Execute(c, y.ledger, tx))
  }

  function Run(c: Codec, y: System, steps: seq<Step>): System
  {
    if steps == [] then y else Apply(c, Run(c, y, steps[..|steps| - 1]), steps[|steps| - 1])
  }

  // ---- records are immutable and precede every broadcast

  /** Every broadcast under an id carries the bytes stored for it. */
  predicate Backed(s: State)
  {
    forall i :: 0 <= i < |s.sent| && s.sent[i].id != "" ==>
      s.sent[i].id in s.records && s.records[s.sent[i].id].tx == s.sent[i].tx
  }

  predicate RecordsKept(s: State, s': State)
  {
    && (forall id :: id in s.records ==> id in s'.records && s'.records[id] == s.records[id])
    && |s.sent| <= |s'.sent| && s'.sent[..|s.sent|] == s.sent
  }

  lemma SendKeeps(c: Codec, s: State, r: Request, w: World)
    requires Backed(s)
    ensures Backed(Send(c, s, r, w).0) && RecordsKept(s, Send(c, s, r, w).0)
  {
  }

  /** After a crash between storing and sending, the same operation sends the stored bytes, however it is signed now. */
  lemma RetrySendsStoredBytes(c: Codec, s: State, r: Request, w: World)
    requires r.id != "" && r.id in s.records && Send(c, s, r, w).1 == Submitted
    ensures Send(c, s, r, w).0 == Broadcast(s, r.id, s.records[r.id].tx)
    ensures s.records[r.id].intent == c.intentOf(r.op)
  {
  }

  lemma {:induction false} RunKeeps(c: Codec, y: System, steps: seq<Step>)
    requires Backed(y.client)
    ensures Backed(Run(c, y, steps).client) && RecordsKept(y.client, Run(c, y, steps).client)
  {
    if steps != [] {
      var init, last := steps[..|steps| - 1], steps[|steps| - 1];
      RunKeeps(c, y, init);
      if last.Call? { SendKeeps(c, Run(c, y, init).client, last.request, last.world); }
      KeptTransitive(y.client, Run(c, y, init).client, Run(c, y, steps).client);
    }
  }

  lemma KeptTransitive(a: State, b: State, d: State)
    requires RecordsKept(a, b) && (RecordsKept(b, d) || b == d)
    ensures RecordsKept(a, d)
  {
    if b != d {
      assert d.sent[..|a.sent|] == d.sent[..|b.sent|][..|a.sent|];
    }
  }

  // ---- one operation per id

  /** The id belongs to the operation. */
  predicate Bound(c: Codec, s: State, id: string, op: Operation)
  {
    id in s.records && s.records[id].intent == c.intentOf(op)
  }

  /** Intents are hashes of operations, taken as free of collisions. */
  ghost predicate DistinctIntents(c: Codec)
  {
    forall a, b :: c.intentOf(a) == c.intentOf(b) ==> a == b
  }

  /** The client just before step k. */
  function Before(c: Codec, y: System, steps: seq<Step>, k: nat): State
    requires k <= |steps|
  {
    Run(c, y, steps[..k]).client
  }

  /** Step k binds the id: it stores a record for its own operation, or finds that one. */
  ghost predicate Binds(c: Codec, y: System, steps: seq<Step>, k: nat, id: string)
    requires k < |steps|
  {
    steps[k].Call? && steps[k].request.id == id && Bound(c, Before(c, y, steps, k + 1), id, steps[k].request.op)
  }

  /** Step k submits a transaction under the id, or reports its success. */
  predicate Serves(c: Codec, y: System, steps: seq<Step>, k: nat, id: string)
    requires k < |steps|
  {
    && steps[k].Call? && steps[k].request.id == id
    && Send(c, Before(c, y, steps, k), steps[k].request, steps[k].world).1 in {Submitted, Reconciled}
  }

  lemma StepBefore(c: Codec, y: System, steps: seq<Step>, k: nat)
    requires k < |steps| && steps[k].Call?
    ensures Before(c, y, steps, k + 1) == Send(c, Before(c, y, steps, k), steps[k].request, steps[k].world).0
  {
    assert steps[..k + 1][..k] == steps[..k];
  }

  /** Whoever is served has bound the id to its own operation. */
  lemma ServedBinds(c: Codec, y: System, steps: seq<Step>, k: nat, id: string)
    requires k < |steps| && id != "" && Serves(c, y, steps, k, id)
    ensures Binds(c, y, steps, k, id)
  {
    StepBefore(c, y, steps, k);
  }

  lemma {:induction false} RecordsStay(c: Codec, y: System, steps: seq<Step>, i: nat, j: nat, id: string)
    requires i <= j <= |steps| && id in Before(c, y, steps, i).records
    ensures id in Before(c, y, steps, j).records
    ensures Before(c, y, steps, j).records[id] == Before(c, y, steps, i).records[id]
  {
    if i < j {
      RecordsStay(c, y, steps, i, j - 1, id);
      assert steps[..j][..j - 1] == steps[..j - 1];
    }
  }

  /**
   * Over any calls and crashes: once one operation has bound an id, every later call of another operation
   * under it stores nothing, sends nothing and is not told of success.
   */
  lemma OtherOperationRefused(c: Codec, y: System, steps: seq<Step>, i: nat, j: nat, id: string)
    requires DistinctIntents(c) && id != "" && i < j < |steps| && Binds(c, y, steps, i, id)
    requires steps[j].Call? && steps[j].request.id == id && steps[j].request.op != steps[i].request.op
    ensures Before(c, y, steps, j + 1) == Before(c, y, steps, j) && !Serves(c, y, steps, j, id)
  {
    RecordsStay(c, y, steps, i + 1, j, id);
    StepBefore(c, y, steps, j);
    hide Run;
  }

  /** So all calls that are ever served under one id ask for one operation. */
  lemma OneOperationPerId(c: Codec, y: System, steps: seq<Step>, i: nat, j: nat, id: string)
    requires DistinctIntents(c) && id != "" && i < |steps| && j < |steps|
    requires Serves(c, y, steps, i, id) && Serves(c, y, steps, j, id)
    ensures steps[i].request.op == steps[j].request.op
  {
    ServedBinds(c, y, steps, i, id);
    ServedBinds(c, y, steps, j, id);
    hide Serves, Binds;
    if steps[i].request.op != steps[j].request.op {
      if i < j { OtherOperationRefused(c, y, steps, i, j, id); } else { OtherOperationRefused(c, y, steps, j, i, id); }
    }
  }

  // ---- when a call succeeds

  /** The call gets past its own arguments, the stored record and the status request. */
  predicate Usable(s: State, r: Request, w: World)
  {
    && 0 < |r.id| <= 200 && w.keyOk && w.encodeOk && w.statusOk
    && (r.id in s.records ==> var saved := s.records[r.id]; saved.intent != "" && saved.hash != "" && saved.tx != [])
  }

  /** The id is bound to this operation, and the record is intact. */
  predicate Own(c: Codec, s: State, r: Request)
  {
    && r.id in s.records && s.records[r.id].intent == c.intentOf(r.op)
    && Upper(s.records[r.id].hash) == Upper(c.hashOf(s.records[r.id].tx))
  }

  /**
   * When a call under an id succeeds. It reports a committed request exactly when its own transaction was found with code
   * 0. It submits exactly when the id is new and the signed bytes could be stored, or when its own transaction was not
   * found and the account still has the sequence that was signed.
   */
  lemma SuccessExactly(c: Codec, s: State, r: Request, w: World)
    requires r.id != ""
    ensures Send(c, s, r, w).1 == Reconciled <==> Usable(s, r, w) && Own(c, s, r) && w.lookup == Some(Some(0))
    ensures Send(c, s, r, w).1 == Submitted <==>
      && Usable(s, r, w)
      && (if r.id in s.records then Own(c, s, r) && w.lookup == Some(None) && w.account == Some(s.records[r.id].sequence)
          else w.signed.Some? && w.putOk && w.crash == Never)
  {
    hide Upper;
  }

  /** A transaction found with another code is never reported as a success, and nothing is sent in its place. */
  lemma FailureIsReported(c: Codec, s: State, r: Request, w: World, code: uint32)
    requires r.id != "" && Usable(s, r, w) && Own(c, s, r) && w.lookup == Some(Some(code)) && code != 0
    ensures Send(c, s, r, w) == (s, Finalized(code))
  {
    hide Upper;
  }

  /** A call stores exactly one thing: under a new id, the bytes it signed, with their hash, its intent and its sequence. */
  lemma StoresExactly(c: Codec, s: State, r: Request, w: World)
    requires r.id != ""
    ensures var s' := Send(c, s, r, w).0;
      if r.id !in s.records && Usable(s, r, w) && w.signed.Some? && w.crash != BeforePut && w.putOk
      then s'.records == s.records[r.id := Attempt(c.intentOf(r.op), w.signed.value, c.hashOf(w.signed.value), r.sequence, Some(r.account))]
      else s'.records == s.records
    ensures var (s', o) := Send(c, s, r, w);
      s'.sent == if o == Submitted then s.sent + [Sent(r.id, s'.records[r.id].tx)] else s.sent
  {
    hide EqualFold;
  }

  // ---- receipts

  /** Every broadcast under an id has the hash that the record of the id gives. */
  predicate Hashed(c: Codec, s: State)
  {
    forall i :: 0 <= i < |s.sent| && s.sent[i].id != "" ==>
      s.sent[i].id in s.records && EqualFold(s.records[s.sent[i].id].hash, c.hashOf(s.sent[i].tx))
  }

  lemma SendHashed(c: Codec, s: State, r: Request, w: World)
    requires Hashed(c, s)
    ensures Hashed(c, Send(c, s, r, w).0)
  {
    hide EqualFold;
    assert r.id !in s.records && w.signed.Some? ==> EqualFold(NewAttempt(c, r, w.signed.value).hash, c.hashOf(w.signed.value)) by {
      SameFolds(if w.signed.Some? then c.hashOf(w.signed.value) else "");
    }
  }

  lemma SameFolds(a: string)
    ensures EqualFold(a, a)
  {
  }

  lemma {:induction false} RunHashed(c: Codec, y: System, steps: seq<Step>)
    requires Hashed(c, y.client)
    ensures Hashed(c, Run(c, y, steps).client)
  {
    if steps != [] {
      var init, last := steps[..|steps| - 1], steps[|steps| - 1];
      RunHashed(c, y, init);
      if last.Call? { SendHashed(c, Run(c, y, init).client, last.request, last.world); }
    }
  }

  /**
   * A receipt once given stays the same over all later calls and crashes, and its hash is that of every
   * transaction broadcast under the id, before or afterwards.
   */
  lemma ReceiptsLast(c: Codec, y: System, steps: seq<Step>, i: nat, j: nat, id: string)
    requires Hashed(c, y.client) && i <= j <= |steps| && id != "" && ReceiptFor(Before(c, y, steps, i), id).Some?
    ensures ReceiptFor(Before(c, y, steps, j), id) == ReceiptFor(Before(c, y, steps, i), id)
    ensures var s := Before(c, y, steps, j);
      forall k :: 0 <= k < |s.sent| && s.sent[k].id == id ==>
        EqualFold(ReceiptFor(Before(c, y, steps, i), id).value.hash, c.hashOf(s.sent[k].tx))
  {
    RecordsStay(c, y, steps, i, j, id);
    RunHashed(c, y, steps[..j]);
    hide Run, EqualFold;
  }

  // ---- the chain executes a given transaction at most once

  /** Sequences of one signer rise along the ledger and stay below its next one. */
  ghost predicate LedgerOk(c: Codec, l: Ledger)
  {
    && (forall i :: 0 <= i < |l.executed| ==> c.sequenceOf(l.executed[i]) < NextSequence(l, c.signerOf(l.executed[i])))
    && (forall i, j :: 0 <= i < j < |l.executed| ==> l.executed[i] != l.executed[j])
  }

  lemma ExecuteOnce(c: Codec, l: Ledger, tx: Bytes)
    requires LedgerOk(c, l)
    ensures LedgerOk(c, Execute(c, l, tx))
  {
  }

  lemma {:induction false} RunLedger(c: Codec, y: System, steps: seq<Step>)
    requires LedgerOk(c, y.ledger)
    ensures LedgerOk(c, Run(c, y, steps).ledger)
  {
    if steps != [] {
      var init, last := steps[..|steps| - 1], steps[|steps| - 1];
      RunLedger(c, y, init);
      if last.Block? { ExecuteOnce(c, Run(c, y, init).ledger, last.tx); }
    }
  }

  function Executions(executed: seq<Bytes>, tx: Bytes): nat
  {
    if executed == [] then 0
    else Executions(executed[..|executed| - 1], tx) + if executed[|executed| - 1] == tx then 1 else 0
  }

  lemma {:induction false} DistinctOnce(executed: seq<Bytes>, tx: Bytes)
    requires forall i, j :: 0 <= i < j < |executed| ==> executed[i] != executed[j]
    ensures Executions(executed, tx) <= 1 && (Executions(executed, tx) == 1 <==> tx in executed)
  {
    if executed != [] {
      var init := executed[..|executed| - 1];
      DistinctOnce(init, tx);
      assert executed == init + [executed[|executed| - 1]];
    }
  }

  /**
   * Over any calls, crashes and resubmissions: all broadcasts under one id are the same bytes, which
   * were stored first, and the chain executes those bytes at most once.
   */
  lemma RequestTakesEffectOnce(c: Codec, start: System, steps: seq<Step>, id: string)
    requires id != "" && Backed(start.client) && LedgerOk(c, start.ledger)
    ensures var y := Run(c, start, steps);
      && (forall i :: 0 <= i < |y.client.sent| && y.client.sent[i].id == id ==>
            id in y.client.records && y.client.sent[i].tx == y.client.records[id].tx)
      && (id in y.client.records ==> Executions(y.ledger.executed, y.client.records[id].tx) <= 1)
      && (id in start.client.records ==> id in y.client.records && y.client.records[id] == start.client.records[id])
  {
    RunKeeps(c, start, steps);
    RunLedger(c, start, steps);
    var y := Run(c, start, steps);
    if id in y.client.records { DistinctOnce(y.ledger.executed, y.client.records[id].tx); }
  }
}
