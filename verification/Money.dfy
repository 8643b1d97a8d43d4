// Where the money is: what the provider has captured and refunded for each payment, against
// what the payments table says, on every run of the consumer.
module Money {
  import opened Arithmetic
  import opened Wrappers
  import opened Faults
  import opened Text
  import opened Uuids
  import opened Payments
  import opened PaymentStore
  import opened PaymentCommands
  import opened PaymentRuns
  import opened Consumer
  import opened ConsumerRuns
  import Retry
  import Transport

  datatype Kind = Capturing | Refunding

  /** The status that a save must commit for such a provider call to be on the books. */
  function Booked(kind: Kind): Status { if kind == Capturing then Paid else Refunded }

  /** The provider moved money for this payment, whether or not it said so. */
  predicate Moved(e: Effect, id: string, kind: Kind) {
    match e
    case CaptureCall(i, _, _, o) => kind == Capturing && i == id && o != Refused
    case RefundCall(i, o) => kind == Refunding && i == id && o != Refused
    case SaveCall(_, _, _) => false
  }

  predicate Commits(e: Effect, id: string, status: Status) {
    e.SaveCall? && e.id == id && e.status == status && e.outcome != Refused
  }

  function Moves(log: seq<Effect>, id: string, kind: Kind): nat {
    if log == [] then 0 else (if Moved(log[0], id, kind) then 1 else 0) + Moves(log[1..], id, kind)
  }

  /** Moves of money that no committed save follows at once: their attempt has failed. */
  function Strays(log: seq<Effect>, id: string, kind: Kind): nat {
    if log == [] then 0 else
      (if Moved(log[0], id, kind) && !(|log| > 1 && Commits(log[1], id, Booked(kind))) then 1 else 0)
      + Strays(log[1..], id, kind)
  }

  /** Capture requests to the provider, for all payments and whatever became of them. */
  function Requests(log: seq<Effect>): nat {
    if log == [] then 0 else (if log[0].CaptureCall? then 1 else 0) + Requests(log[1..])
  }

  /** The books of one payment. */
  ghost predicate Balanced(log: seq<Effect>, row: Row) { Counted(log, row) && OnRecord(log, row) && Ordered(log, row) }

  /** What was moved is what the status says, and the strays. */
  ghost predicate Counted(log: seq<Effect>, row: Row) {
    && Moves(log, row.id, Capturing)
       == (if row.status in {Paid, Refunded} then 1 else 0) + Strays(log, row.id, Capturing)
    && Moves(log, row.id, Refunding)
       == (if row.status == Refunded then 1 else 0) + Strays(log, row.id, Refunding)
  }

  /** The status is paid or refunded exactly if such a save has been committed. */
  ghost predicate OnRecord(log: seq<Effect>, row: Row) {
    && (row.status in {Paid, Refunded} <==> exists k :: 0 <= k < |log| && Commits(log[k], row.id, Paid))
    && (row.status == Refunded <==> exists k :: 0 <= k < |log| && Commits(log[k], row.id, Refunded))
  }

  ghost predicate Ordered(log: seq<Effect>, row: Row) {
    // Such a save is committed only right after the provider agreed.
    && (forall k | 0 <= k < |log| && Commits(log[k], row.id, Paid) ::
          k > 0 && log[k - 1] == CaptureCall(row.id, row.amount, row.currency, Done))
    && (forall k | 0 <= k < |log| && Commits(log[k], row.id, Refunded) ::
          k > 0 && log[k - 1] == RefundCall(row.id, Done) && exists j :: 0 <= j < k && Commits(log[j], row.id, Paid))
    // A paid payment is never captured again, and every capture is for its amount.
    && (forall j, k | 0 <= j < k < |log| && Commits(log[j], row.id, Paid) :: !Captures(log[k], row.id))
    && (forall k | 0 <= k < |log| && Captures(log[k], row.id) ::
          log[k].amount == row.amount && log[k].currency == row.currency)
  }

  predicate Captures(e: Effect, id: string) { e.CaptureCall? && e.id == id }

  ghost predicate Safe(w: World) {
    && (forall i {:trigger Balanced(w.log, w.rows[i])} | 0 <= i < |w.rows| :: Balanced(w.log, w.rows[i]))
    && Followed(w.log)
    && forall k | 0 <= k < |w.log| :: |w.log[k].id| < w.issued + 36
  }

  /** Every move of money that the provider reports is followed at once by an attempt to save it. */
  ghost predicate Followed(log: seq<Effect>) {
    forall k, kind {:trigger Reported(log[k], kind)} | 0 <= k < |log| && Reported(log[k], kind) ::
      k + 1 < |log| && Saves(log[k + 1], log[k].id, Booked(kind))
  }

  predicate Saves(e: Effect, id: string, status: Status) { e.SaveCall? && e.id == id && e.status == status }

  predicate Reported(e: Effect, kind: Kind) { Charges(e, e.id, kind) && e.outcome == Done }

  predicate Charges(e: Effect, id: string, kind: Kind) {
    e.id == id && if kind == Capturing then e.CaptureCall? else e.RefundCall?
  }

  // ----- counting -----

  lemma {:induction false} MovesAppend(a: seq<Effect>, b: seq<Effect>, id: string, kind: Kind)
    ensures Moves(a + b, id, kind) == Moves(a, id, kind) + Moves(b, id, kind)
  {
    if a == [] {
      assert a + b == b;
    } else {
      MovesAppend(a[1..], b, id, kind);
      assert (a + b)[1..] == a[1..] + b;
    }
  }

  lemma {:induction false} StraysAppend(a: seq<Effect>, b: seq<Effect>, id: string, kind: Kind)
    requires b != [] ==> !Commits(b[0], id, Booked(kind))
    ensures Strays(a + b, id, kind) == Strays(a, id, kind) + Strays(b, id, kind)
  {
    if a == [] {
      assert a + b == b;
    } else {
      StraysAppend(a[1..], b, id, kind);
      assert (a + b)[1..] == a[1..] + b;
    }
  }

  lemma {:induction false} RequestsAppend(a: seq<Effect>, b: seq<Effect>)
    ensures Requests(a + b) == Requests(a) + Requests(b)
  {
    if a == [] {
      assert a + b == b;
    } else {
      RequestsAppend(a[1..], b);
      assert (a + b)[1..] == a[1..] + b;
    }
  }

  lemma {:induction false} NothingMoved(log: seq<Effect>, id: string, kind: Kind)
    requires forall k | 0 <= k < |log| :: log[k].id != id
    ensures Moves(log, id, kind) == Strays(log, id, kind) == 0
  {
    if log != [] { NothingMoved(log[1..], id, kind); }
  }

  /** There are no strays exactly if every move of money is followed at once by its save. */
  lemma {:induction false} NoStrays(log: seq<Effect>, id: string, kind: Kind)
    ensures Strays(log, id, kind) == 0 <==>
      forall k | 0 <= k < |log| && Moved(log[k], id, kind) :: k + 1 < |log| && Commits(log[k + 1], id, Booked(kind))
  {
    if log != [] {
      NoStrays(log[1..], id, kind);
      var rest := log[1..];
      assert forall k | 0 <= k < |rest| :: rest[k] == log[k + 1];
      if Strays(log, id, kind) == 0 {
        forall k | 0 <= k < |log| && Moved(log[k], id, kind)
          ensures k + 1 < |log| && Commits(log[k + 1], id, Booked(kind))
        {
          if k > 0 { assert Moved(rest[k - 1], id, kind) && Commits(rest[k], id, Booked(kind)); }
        }
      } else if Strays(rest, id, kind) > 0 {
        var k :| 0 <= k < |rest| && Moved(rest[k], id, kind) && !(k + 1 < |rest| && Commits(rest[k + 1], id, Booked(kind)));
        assert Moved(log[k + 1], id, kind);
      }
    }
  }

  // ----- what an attempt adds to the log -----

  function Move(row: Row, kind: Kind, o: Outcome): Effect {
    if kind == Capturing then CaptureCall(row.id, row.amount, row.currency, o) else RefundCall(row.id, o)
  }

  /** The row may be charged in this way now: a pending one captured, a paid one refunded. */
  predicate Due(row: Row, kind: Kind) { row.status == if kind == Capturing then Pending else Paid }

  predicate SameIdentity(row: Row, row': Row) {
    row'.id == row.id && row'.amount == row.amount && row'.currency == row.currency
  }

  lemma CountAppend(log: seq<Effect>, chunk: seq<Effect>, id: string, kind: Kind)
    requires |chunk| > 0 && !Commits(chunk[0], id, Booked(kind))
    ensures Moves(log + chunk, id, kind) == Moves(log, id, kind) + Moves(chunk, id, kind)
    ensures Strays(log + chunk, id, kind) == Strays(log, id, kind) + Strays(chunk, id, kind)
  {
    MovesAppend(log, chunk, id, kind);
    StraysAppend(log, chunk, id, kind);
  }

  lemma CountOne(e: Effect, id: string, kind: Kind)
    ensures Moves([e], id, kind) == Strays([e], id, kind) == if Moved(e, id, kind) then 1 else 0
  {
    assert [e][1..] == [];
  }

  lemma CountTwo(a: Effect, b: Effect, id: string, kind: Kind)
    ensures Moves([a, b], id, kind) == (if Moved(a, id, kind) then 1 else 0) + (if Moved(b, id, kind) then 1 else 0)
    ensures Strays([a, b], id, kind)
         == (if Moved(a, id, kind) && !Commits(b, id, Booked(kind)) then 1 else 0) + (if Moved(b, id, kind) then 1 else 0)
  {
    assert [a, b][1..] == [b];
    CountOne(b, id, kind);
  }

  /** An entry that books nothing, and is not a capture of a payment that is paid. */
  lemma OneEntry(log: seq<Effect>, row: Row, row': Row, e: Effect)
    requires OnRecord(log, row) && Ordered(log, row) && SameIdentity(row, row')
    requires row'.status in {Paid, Refunded} <==> row.status in {Paid, Refunded}
    requires row'.status == Refunded <==> row.status == Refunded
    requires !Commits(e, row.id, Paid) && !Commits(e, row.id, Refunded)
    requires Captures(e, row.id) ==> row.status !in {Paid, Refunded} && e.amount == row.amount && e.currency == row.currency
    ensures OnRecord(log + [e], row') && Ordered(log + [e], row')
  {
    StaysOnRecord(log, row, e);
    StaysOrdered(log, row, e);
  }

  lemma StaysOnRecord(log: seq<Effect>, row: Row, e: Effect)
    requires OnRecord(log, row) && !Commits(e, row.id, Paid) && !Commits(e, row.id, Refunded)
    ensures OnRecord(log + [e], row)
  {
    var log' := log + [e];
    assert forall k | 0 <= k < |log| :: log'[k] == log[k];
    assert log'[|log|] == e;
  }

  /** What the books demand of the next effect on them. */
  ghost predicate InOrder(log: seq<Effect>, row: Row, e: Effect) {
    && (Commits(e, row.id, Paid) ==>
          log != [] && log[|log| - 1] == CaptureCall(row.id, row.amount, row.currency, Done))
    && (Commits(e, row.id, Refunded) ==>
          && log != [] && log[|log| - 1] == RefundCall(row.id, Done)
          && exists j :: 0 <= j < |log| && Commits(log[j], row.id, Paid))
    && (Captures(e, row.id) ==>
          && e.amount == row.amount && e.currency == row.currency
          && forall j | 0 <= j < |log| :: !Commits(log[j], row.id, Paid))
  }

  lemma OrderedAppend(log: seq<Effect>, row: Row, e: Effect)
    requires Ordered(log, row) && InOrder(log, row, e)
    ensures Ordered(log + [e], row)
  {
    var n, log' := |log|, log + [e];
    assert forall k | 0 <= k < n :: log'[k] == log[k];
    assert log'[n] == e;
    forall k | 0 <= k < |log'| && Commits(log'[k], row.id, Refunded)
      ensures k > 0 && log'[k - 1] == RefundCall(row.id, Done)
      ensures exists j :: 0 <= j < k && Commits(log'[j], row.id, Paid)
    {
      var j :| 0 <= j < n && j < k && Commits(log[j], row.id, Paid);
      assert Commits(log'[j], row.id, Paid);
    }
    forall k | 0 <= k < |log'| && Commits(log'[k], row.id, Paid)
      ensures k > 0 && log'[k - 1] == CaptureCall(row.id, row.amount, row.currency, Done)
    {}
    forall j, k | 0 <= j < k < |log'| && Commits(log'[j], row.id, Paid)
      ensures !Captures(log'[k], row.id)
    {}
  }

  lemma StaysOrdered(log: seq<Effect>, row: Row, e: Effect)
    requires OnRecord(log, row) && Ordered(log, row) && !Commits(e, row.id, Paid) && !Commits(e, row.id, Refunded)
    requires Captures(e, row.id) ==> row.status !in {Paid, Refunded} && e.amount == row.amount && e.currency == row.currency
    ensures Ordered(log + [e], row)
  {
    OrderedAppend(log, row, e);
  }

  lemma OthersBalanced(log: seq<Effect>, e: Effect, row: Row)
    requires Balanced(log, row) && e.id != row.id
    ensures Balanced(log + [e], row)
  {
    CountAppend(log, [e], row.id, Capturing);
    CountAppend(log, [e], row.id, Refunding);
    CountOne(e, row.id, Capturing);
    CountOne(e, row.id, Refunding);
    OneEntry(log, row, row, e);
  }

  /** A charge that did not come back as done is a stray, or moved nothing. */
  lemma StrayBalanced(log: seq<Effect>, row: Row, kind: Kind, o: Outcome)
    requires Balanced(log, row) && Due(row, kind) && o != Done
    ensures Balanced(log + [Move(row, kind, o)], row)
  {
    var e := Move(row, kind, o);
    CountAppend(log, [e], row.id, Capturing);
    CountAppend(log, [e], row.id, Refunding);
    CountOne(e, row.id, Capturing);
    CountOne(e, row.id, Refunding);
    OneEntry(log, row, row, e);
  }

  /** A save that books no money. */
  lemma FailedSaveBalanced(log: seq<Effect>, row: Row, row': Row, status: Status, o: Outcome)
    requires Balanced(log, row) && SameIdentity(row, row') && status !in {Paid, Refunded}
    requires row.status !in {Paid, Refunded} && row'.status !in {Paid, Refunded}
    ensures Balanced(log + [SaveCall(row.id, status, o)], row')
  {
    var e := SaveCall(row.id, status, o);
    CountAppend(log, [e], row.id, Capturing);
    CountAppend(log, [e], row.id, Refunding);
    CountOne(e, row.id, Capturing);
    CountOne(e, row.id, Refunding);
    OneEntry(log, row, row', e);
  }

  /** A charge that was done, and the save after it: on the books if the save commits. */
  lemma ChargedBalanced(log: seq<Effect>, row: Row, row': Row, kind: Kind, o: Outcome)
    requires Balanced(log, row) && Due(row, kind) && SameIdentity(row, row')
    requires row'.status == if o == Refused then row.status else Booked(kind)
    ensures Balanced(log + [Move(row, kind, Done), SaveCall(row.id, Booked(kind), o)], row')
  {
    var a, b := Move(row, kind, Done), SaveCall(row.id, Booked(kind), o);
    CountAppend(log, [a, b], row.id, Capturing);
    CountAppend(log, [a, b], row.id, Refunding);
    CountTwo(a, b, row.id, Capturing);
    CountTwo(a, b, row.id, Refunding);
    OneEntry(log, row, row, a);
    assert log + [a, b] == log + [a] + [b];
    if o == Refused {
      OneEntry(log + [a], row, row', b);
    } else {
      BookedEntry(log + [a], row, row', kind, b);
    }
  }

  lemma BookedEntry(log: seq<Effect>, row: Row, row': Row, kind: Kind, e: Effect)
    requires OnRecord(log, row) && Ordered(log, row) && SameIdentity(row, row')
    requires Due(row, kind) && row'.status == Booked(kind) && Commits(e, row.id, Booked(kind))
    requires log != [] && log[|log| - 1] == Move(row, kind, Done)
    ensures OnRecord(log + [e], row') && Ordered(log + [e], row')
  {
    GoesOnRecord(log, row, row', kind, e);
    GoesInOrder(log, row, kind, e);
  }

  lemma GoesOnRecord(log: seq<Effect>, row: Row, row': Row, kind: Kind, e: Effect)
    requires OnRecord(log, row) && row'.id == row.id
    requires Due(row, kind) && row'.status == Booked(kind) && Commits(e, row.id, Booked(kind))
    ensures OnRecord(log + [e], row')
  {
    var log' := log + [e];
    assert forall k | 0 <= k < |log| :: log'[k] == log[k];
    assert log'[|log|] == e;
    if kind == Refunding {
      var j :| 0 <= j < |log| && Commits(log[j], row.id, Paid);
      assert Commits(log'[j], row.id, Paid);
    }
  }

  lemma GoesInOrder(log: seq<Effect>, row: Row, kind: Kind, e: Effect)
    requires OnRecord(log, row) && Ordered(log, row) && Due(row, kind) && Commits(e, row.id, Booked(kind))
    requires log != [] && log[|log| - 1] == Move(row, kind, Done)
    ensures Ordered(log + [e], row)
  {
    OrderedAppend(log, row, e);
  }

  // ----- commands and attempts -----

  /** A command on the row it is due for. */
  predicate DueCommand(row: Row, c: Command) {
    match c
    case MarkPaid => row.status == Pending
    case MarkFailed(_) => row.status == Pending
    case Refund => row.status == Paid
  }

  /** What such a command adds to the log, and what becomes of the row. */
  ghost predicate Chunk(row: Row, row': Row, c: Command, chunk: seq<Effect>) {
    && SameIdentity(row, row')
    && match c
       case MarkFailed(_) =>
         && (row'.status == row.status || row'.status == Failed)
         && (chunk == [] || exists o :: chunk == [SaveCall(row.id, Failed, o)])
         && (chunk == [] ==> row'.status == row.status)
       case _ =>
         var kind := if c == MarkPaid then Capturing else Refunding;
         || (chunk == [] && row'.status == row.status)
         || (row'.status == row.status && exists o :: o != Done && chunk == [Move(row, kind, o)])
         || exists o :: chunk == [Move(row, kind, Done), SaveCall(row.id, Booked(kind), o)]
              && row'.status == if o == Refused then row.status else Booked(kind)
  }

  lemma ExecuteChunk(env: Env, w: World, i: nat, c: Command) returns (chunk: seq<Effect>)
    requires Sound(w) && i < |w.rows| && DueCommand(w.rows[i], c)
    ensures var w' := Execute(env, w, w.rows[i].id, c).0;
      && w'.log == w.log + chunk && w'.issued == w.issued && |w'.rows| == |w.rows|
      && (forall j | 0 <= j < |w.rows| && j != i :: w'.rows[j] == w.rows[j])
      && Chunk(w.rows[i], w'.rows[i], c, chunk)
  {
    var p := Scanned(w.rows[i]);
    assert IndexOf(w.rows, p.id) == i;
    LoadsTheRow(env, w, i);
    chunk := [];
    if env.outcome(w.calls) == Done && Apply(p, c).Success? {
      var (q, events) := Apply(p, c).value;
      assert SoundRow(w.outbox, w.issued, w.rows[i]);
      ApplyKeeps(p, c);
      chunk := ChargeAndSaveChunk(env, Tick(w), i, c, q, events);
    }
  }

  /** The last two steps of a command. */
  lemma ChargeAndSaveChunk(env: Env, w: World, i: nat, c: Command, q: Snapshot, events: seq<DomainEvent>)
    returns (chunk: seq<Effect>)
    requires DistinctIds(w.rows) && i < |w.rows| && FitsColumn(q.amount) && IsUuid(q.id) && IsUuid(q.orderId)
    requires q.id == w.rows[i].id && q.amount == w.rows[i].amount && q.currency == w.rows[i].currency
    requires q.status == match c case MarkPaid => Paid case MarkFailed(_) => Failed case Refund => Refunded
    ensures var w' := ChargeAndSave(env, w, c, q, events).0;
      && w'.log == w.log + chunk && w'.issued == w.issued && |w'.rows| == |w.rows|
      && (forall j | 0 <= j < |w.rows| && j != i :: w'.rows[j] == w.rows[j])
      && Chunk(w.rows[i], w'.rows[i], c, chunk)
  {
    var row := w.rows[i];
    assert IndexOf(w.rows, row.id) == i;
    var (w2, err) := Charge(env, w, c, q);
    var o := env.outcome(w2.calls);
    if err == None {
      SaveIs(env, w2, q, events);
      SaveTouchesOneRow(env, w2, i, q, events);
    }
    match c
    case MarkPaid =>
      chunk := [Move(row, Capturing, env.outcome(w.calls))];
      if err == None { chunk := [Move(row, Capturing, Done), SaveCall(row.id, Paid, o)]; }
    case MarkFailed(_) =>
      chunk := [SaveCall(row.id, Failed, o)];
    case Refund =>
      chunk := [Move(row, Refunding, env.outcome(w.calls))];
      if err == None { chunk := [Move(row, Refunding, Done), SaveCall(row.id, Refunded, o)]; }
  }

  /** One due command keeps the books of every payment. */
  lemma ExecuteKeepsSafe(env: Env, w: World, i: nat, c: Command)
    requires Sound(w) && Safe(w) && i < |w.rows| && DueCommand(w.rows[i], c)
    ensures var w' := Execute(env, w, w.rows[i].id, c).0;
      Safe(w') && Requests(w'.log) <= Requests(w.log) + (if c == MarkPaid then 1 else 0)
  {
    var chunk := ExecuteChunk(env, w, i, c);
    ChunkKeepsSafe(w, Execute(env, w, w.rows[i].id, c).0, i, c, chunk);
  }

  lemma ChunkKeepsSafe(w: World, w': World, i: nat, c: Command, chunk: seq<Effect>)
    requires Sound(w) && Safe(w) && i < |w.rows| && DueCommand(w.rows[i], c)
    requires w'.log == w.log + chunk && w'.issued == w.issued && |w'.rows| == |w.rows|
    requires (forall j | 0 <= j < |w.rows| && j != i :: w'.rows[j] == w.rows[j])
    requires Chunk(w.rows[i], w'.rows[i], c, chunk)
    ensures Safe(w') && Requests(w'.log) <= Requests(w.log) + (if c == MarkPaid then 1 else 0)
  {
    RequestsAppend(w.log, chunk);
    ChunkRequests(w.rows[i], w'.rows[i], c, chunk);
    ChunkKeepsBooks(w, w', i, c, chunk);
    ChunkFollowed(w.rows[i], w'.rows[i], c, chunk);
    FollowedAppend(w.log, chunk);
    assert SoundRow(w.outbox, w.issued, w.rows[i]);
    forall k | 0 <= k < |w'.log|
      ensures |w'.log[k].id| < w'.issued + 36
    {
      if k >= |w.log| { assert w'.log[k] == chunk[k - |w.log|]; }
    }
  }

  lemma ChunkKeepsBooks(w: World, w': World, i: nat, c: Command, chunk: seq<Effect>)
    requires DistinctIds(w.rows) && Safe(w) && i < |w.rows| && DueCommand(w.rows[i], c)
    requires w'.log == w.log + chunk && |w'.rows| == |w.rows|
    requires (forall j | 0 <= j < |w.rows| && j != i :: w'.rows[j] == w.rows[j])
    requires Chunk(w.rows[i], w'.rows[i], c, chunk) && forall k | 0 <= k < |chunk| :: chunk[k].id == w.rows[i].id
    ensures forall j | 0 <= j < |w'.rows| :: Balanced(w'.log, w'.rows[j])
  {
    forall j | 0 <= j < |w'.rows|
      ensures Balanced(w'.log, w'.rows[j])
    {
      assert Balanced(w.log, w.rows[j]);
      if j == i {
        ChunkBalanced(w.log, w.rows[i], w'.rows[i], c, chunk);
      } else {
        assert IndexOf(w.rows, w.rows[i].id) == i && IndexOf(w.rows, w.rows[j].id) == j;
        OtherChunk(w.log, chunk, w.rows[j]);
      }
    }
  }

  lemma ChunkRequests(row: Row, row': Row, c: Command, chunk: seq<Effect>)
    requires Chunk(row, row', c, chunk)
    ensures Requests(chunk) <= if c == MarkPaid then 1 else 0
    ensures |chunk| <= 2 && forall k | 0 <= k < |chunk| :: chunk[k].id == row.id
  {
    if |chunk| == 1 {
      assert chunk[1..] == [];
    } else if |chunk| == 2 {
      assert chunk[1..] == [chunk[1]] && chunk[1..][1..] == [];
      assert Requests(chunk[1..]) == if chunk[1].CaptureCall? then 1 else 0;
    }
  }

  lemma ChunkFollowed(row: Row, row': Row, c: Command, chunk: seq<Effect>)
    requires Chunk(row, row', c, chunk)
    ensures Followed(chunk)
  {
    if |chunk| == 2 {
      assert Saves(chunk[1], chunk[0].id, if c == MarkPaid then Paid else Refunded);
    } else if |chunk| == 1 {
      assert forall kind :: !Reported(chunk[0], kind);
    }
  }

  lemma FollowedAppend(a: seq<Effect>, b: seq<Effect>)
    requires Followed(a) && Followed(b)
    ensures Followed(a + b)
  {
    forall k, kind | 0 <= k < |a + b| && Reported((a + b)[k], kind)
      ensures k + 1 < |a + b| && Saves((a + b)[k + 1], (a + b)[k].id, Booked(kind))
    {
      if k < |a| {
        assert Reported(a[k], kind) && (a + b)[k + 1] == a[k + 1];
      } else {
        assert Reported(b[k - |a|], kind) && (a + b)[k + 1] == b[k - |a| + 1];
      }
    }
  }

  lemma ChunkBalanced(log: seq<Effect>, row: Row, row': Row, c: Command, chunk: seq<Effect>)
    requires Balanced(log, row) && DueCommand(row, c) && Chunk(row, row', c, chunk)
    ensures Balanced(log + chunk, row')
  {
    if chunk == [] {
      assert log + chunk == log;
    } else if c.MarkFailed? {
      FailedSaveBalanced(log, row, row', Failed, chunk[0].outcome);
    } else {
      var kind := if c == MarkPaid then Capturing else Refunding;
      if |chunk| == 1 {
        StrayBalanced(log, row, kind, chunk[0].outcome);
      } else {
        ChargedBalanced(log, row, row', kind, chunk[1].outcome);
      }
    }
  }

  lemma {:induction false} OtherChunk(log: seq<Effect>, chunk: seq<Effect>, row: Row)
    requires Balanced(log, row) && forall k | 0 <= k < |chunk| :: chunk[k].id != row.id
    ensures Balanced(log + chunk, row)
  {
    if chunk == [] {
      assert log + chunk == log;
    } else {
      var n := |chunk| - 1;
      OtherChunk(log, chunk[..n], row);
      OthersBalanced(log + chunk[..n], chunk[n], row);
      assert log + chunk == log + chunk[..n] + [chunk[n]];
    }
  }

  lemma {:induction false} UntouchedBalanced(log: seq<Effect>, row: Row)
    requires row.status == Pending && forall k | 0 <= k < |log| :: log[k].id != row.id
    ensures Balanced(log, row)
  {
    NothingMoved(log, row.id, Capturing);
    NothingMoved(log, row.id, Refunding);
  }

  /** A created payment has clean books. */
  lemma CreateKeepsSafe(env: Env, w: World, orderId: string, amount: int, currency: string)
    requires Sound(w) && Safe(w)
    ensures var w' := CreateStep(env, w, orderId, amount, currency).0;
      Safe(w') && Requests(w'.log) == Requests(w.log)
  {
    var w' := CreateStep(env, w, orderId, amount, currency).0;
    CreateAppends(env, w, orderId, amount, currency);
    if w'.log != w.log {
      var e := w'.log[|w.log|];
      assert w'.log == w.log + [e] && e.SaveCall? && e.id == Uuid(w.issued) && e.status == Pending;
      RequestsAppend(w.log, [e]);
      assert [e][1..] == [];
      FollowedAppend(w.log, [e]);
      forall j | 0 <= j < |w'.rows|
        ensures Balanced(w'.log, w'.rows[j])
      {
        if j < |w.rows| {
          assert Balanced(w.log, w.rows[j]) && SoundRow(w.outbox, w.issued, w.rows[j]);
          OthersBalanced(w.log, e, w.rows[j]);
        } else {
          var row := w'.rows[j];
          UntouchedBalanced(w.log, row);
          FailedSaveBalanced(w.log, row, row, Pending, e.outcome);
        }
      }
    } else {
      forall j | 0 <= j < |w'.rows|
        ensures Balanced(w'.log, w'.rows[j])
      {
        assert Balanced(w.log, w.rows[j]);
      }
    }
  }

  lemma SettleKeepsSafe(env: Env, w: World, i: nat)
    requires Sound(w) && Safe(w) && i < |w.rows|
    ensures var w' := Settle(env, w, Scanned(w.rows[i])).0;
      Safe(w') && Requests(w'.log) <= Requests(w.log) + (if w.rows[i].status == Pending then 1 else 0)
  {
    if w.rows[i].status == Pending { ExecuteKeepsSafe(env, w, i, MarkPaid); }
  }

  /** A payment just created is captured at most once in the attempt that created it. */
  lemma PayNewKeepsSafe(env: Env, w: World, n: nat)
    requires Sound(w) && Safe(w) && n < |w.rows| && w.rows[n].status == Pending
    ensures var w' := PayNew(env, w, w.rows[n].id).0; Safe(w') && Requests(w'.log) <= Requests(w.log) + 1
  {
    ExecuteKeepsSafe(env, w, n, MarkPaid);
    ExecuteEffect(env, w, n, MarkPaid);
    var (w1, err) := Execute(env, w, w.rows[n].id, MarkPaid);
    LoadsById(env, w1, n);
    if err == None && env.outcome(w1.calls) == Done {
      assert PayNew(env, w, w.rows[n].id) == Settle(env, Tick(w1), Scanned(w1.rows[n]));
    }
  }

  lemma PayNewKeepsSound(env: Env, w: World, n: nat)
    requires Sound(w) && n < |w.rows|
    ensures Sound(PayNew(env, w, w.rows[n].id).0)
  {
    var id := w.rows[n].id;
    ExecuteEffect(env, w, n, MarkPaid);
    var w1 := Execute(env, w, id, MarkPaid).0;
    LoadsById(env, w1, n);
    ExecuteKeepsSound(env, Tick(w1), id, MarkPaid);
  }

  /** Sound tables, balanced books, and at most so many capture requests more. */
  ghost predicate Keeps(w: World, w': World, captures: nat) {
    Sound(w') && Safe(w') && Requests(w'.log) <= Requests(w.log) + captures
  }

  lemma PlacedKeepsSafe(env: Env, w: World, cfg: Config, orderId: string, order: string)
    requires Sound(w) && Safe(w) && Canonical(orderId) == Some(order)
    ensures Keeps(w, HandlePlaced(env, w, cfg, orderId).0, 1)
  {
    var i := LatestFor(w.rows, order);
    if i < |w.rows| {
      LoadsTheRow(env, w, i);
      if env.outcome(w.calls) == Done {
        SettleKeepsSafe(env, Tick(w), i);
        ExecuteKeepsSound(env, Tick(w), w.rows[i].id, MarkPaid);
      }
    } else {
      PlacesNew(env, w, cfg, orderId, order);
      if env.outcome(w.calls) == Done { PlaceNewKeepsSafe(env, Tick(w), cfg, orderId, order); }
    }
  }

  lemma PlaceNewKeepsSafe(env: Env, w: World, cfg: Config, orderId: string, order: string)
    requires Sound(w) && Safe(w) && Canonical(orderId) == Some(order)
    ensures Keeps(w, PlaceNew(env, w, cfg, orderId).0, 1)
  {
    CreateEffect(env, w, cfg, orderId, order);
    CreateKeepsSafe(env, w, orderId, cfg.amount, cfg.currency);
    var (w2, created) := CreateStep(env, w, orderId, cfg.amount, cfg.currency);
    if created.Success? {
      PayNewKeepsSafe(env, w2, |w.rows|);
      PayNewKeepsSound(env, w2, |w.rows|);
    }
  }

  lemma CancelledKeepsSafe(env: Env, w: World, orderId: string, order: string)
    requires Sound(w) && Safe(w) && Canonical(orderId) == Some(order)
    ensures Keeps(w, HandleCancelled(env, w, orderId).0, 0)
  {
    var i := LatestFor(w.rows, order);
    if i < |w.rows| {
      LoadsTheRow(env, w, i);
      var row := w.rows[i];
      if row.status == Paid {
        ExecuteKeepsSafe(env, Tick(w), i, Refund);
        ExecuteKeepsSound(env, Tick(w), row.id, Refund);
      } else if row.status == Pending {
        ExecuteKeepsSafe(env, Tick(w), i, MarkFailed(CANCEL_REASON));
        ExecuteKeepsSound(env, Tick(w), row.id, MarkFailed(CANCEL_REASON));
      }
    }
  }

  // ----- the results -----

  /** One attempt at any message, with any faults, keeps the books of every payment and asks for
      at most one capture. */
  lemma HandleKeepsSafe(env: Env, w: World, cfg: Config, d: Delivery)
    requires Sound(w) && Safe(w)
    ensures Keeps(w, Handle(env, w, cfg, d).0, 1)
  {
    if d.Placed? && Canonical(d.orderId).Some? {
      PlacedKeepsSafe(env, w, cfg, d.orderId, Canonical(d.orderId).value);
    } else if d.Cancelled? && Canonical(d.orderId).Some? {
      CancelledKeepsSafe(env, w, d.orderId, Canonical(d.orderId).value);
    }
  }

  lemma {:induction false} AttemptAllKeepsSafe(envs: seq<Env>, w: World, cfg: Config, d: Delivery)
    requires Sound(w) && Safe(w)
    ensures Keeps(w, AttemptAll(envs, w, cfg, d), |envs|)
  {
    if envs != [] {
      var n := |envs| - 1;
      AttemptAllKeepsSafe(envs[..n], w, cfg, d);
      HandleKeepsSafe(envs[n], AttemptAll(envs[..n], w, cfg, d), cfg, d);
    }
  }

  /** One delivery asks for at most as many captures as the consumer may make attempts. */
  lemma DeliveryBound(env: Env, w: World, cfg: Config, d: Delivery, maxAttempts: nat, q: Patience)
    requires Sound(w) && Safe(w)
    ensures Requests(Retried(env, w, cfg, d, maxAttempts, q).0.log) <= Requests(w.log) + maxAttempts
  {
    var envs := RetriesAreAttempts(env, w, cfg, d, Allowed(q, 1, maxAttempts));
    AttemptAllKeepsSafe(envs, w, cfg, d);
  }

  /** HTTP requests of exchanges with a client with this retry policy: what each sends if the breaker and
      the bulkhead let it through. */
  function Sent(policy: Retry.Policy, xs: seq<Transport.Exchange>): nat
    requires policy.Normalized()
  {
    if xs == [] then 0 else Sent(policy, xs[..|xs| - 1]) + Transport.Requests(policy, xs[|xs| - 1])
  }

  lemma {:induction false} SentBound(policy: Retry.Policy, xs: seq<Transport.Exchange>)
    requires policy.Normalized()
    ensures Sent(policy, xs) <= |xs| * policy.maxAttempts
  {
    if xs != [] {
      SentBound(policy, xs[..|xs| - 1]);
      OneMoreTimes(|xs|, policy.maxAttempts);
    }
  }

  /** HTTP requests sent for the capture requests numbered from `first` on and before `end`; the k-th of
      them is calls(k): one exchange, and one more for each redirect that repeats the request. */
  function PostsFor(policy: Retry.Policy, calls: nat -> seq<Transport.Exchange>, first: nat, end: nat): nat
    requires policy.Normalized()
    decreases end
  {
    if end <= first then 0 else PostsFor(policy, calls, first, end - 1) + Sent(policy, calls(end - 1))
  }

  lemma {:induction false} PostsBound(policy: Retry.Policy, calls: nat -> seq<Transport.Exchange>, hops: nat,
                                      first: nat, end: nat)
    requires policy.Normalized() && forall k :: |calls(k)| <= hops
    ensures PostsFor(policy, calls, first, end) <= (if end <= first then 0 else end - first) * (hops * policy.maxAttempts)
    decreases end
  {
    if first < end {
      PostsBound(policy, calls, hops, first, end - 1);
      SentBound(policy, calls(end - 1));
      TimesKeepsOrder(|calls(end - 1)|, hops, policy.maxAttempts);
      OneMoreTimes(end - first, hops * policy.maxAttempts);
    }
  }

  /** Nested retries: whatever the network, the contexts and the database do, one delivery sends at most
      consumer attempts times HTTP attempts capture requests to the network; and so many times more if
      up to `hops` exchanges are made for one capture, because the provider redirects it. */
  lemma NestedBound(env: Env, w: World, cfg: Config, d: Delivery, maxAttempts: nat, q: Patience,
                    policy: Retry.Policy, calls: nat -> seq<Transport.Exchange>, hops: nat)
    requires Sound(w) && Safe(w) && policy.Normalized() && forall k :: |calls(k)| <= hops
    ensures PostsFor(policy, calls, Requests(w.log), Requests(Retried(env, w, cfg, d, maxAttempts, q).0.log))
         <= maxAttempts * (hops * policy.maxAttempts)
  {
    DeliveryBound(env, w, cfg, d, maxAttempts, q);
    PostsOfSoMany(policy, calls, hops, Requests(w.log), Requests(Retried(env, w, cfg, d, maxAttempts, q).0.log), maxAttempts);
  }

  lemma PostsOfSoMany(policy: Retry.Policy, calls: nat -> seq<Transport.Exchange>, hops: nat,
                      first: nat, end: nat, most: nat)
    requires policy.Normalized() && end <= first + most && forall k :: |calls(k)| <= hops
    ensures PostsFor(policy, calls, first, end) <= most * (hops * policy.maxAttempts)
  {
    PostsBound(policy, calls, hops, first, end);
    TimesKeepsOrder(if end <= first then 0 else end - first, most, hops * policy.maxAttempts);
  }

  /** On every run of the consumer, whatever is delivered and whatever fails, the books of every
      payment balance. */
  lemma {:induction false} ConsumerKeepsTheBooks(cfg: Config, hs: seq<Handled>)
    ensures var w := Consume(EMPTY_WORLD, cfg, hs); Sound(w) && Safe(w)
  {
    if hs != [] {
      var n := |hs| - 1;
      ConsumerKeepsTheBooks(cfg, hs[..n]);
      AttemptAllKeepsSafe(hs[n].envs, Consume(EMPTY_WORLD, cfg, hs[..n]), cfg, hs[n].delivery);
    }
  }

  /** So the money held for a payment is due to its status exactly if as many strays were captured
      as refunded; in particular if every move of money is followed at once by its save. */
  lemma MoneyFollowsStatus(cfg: Config, hs: seq<Handled>, i: nat)
    requires i < |Consume(EMPTY_WORLD, cfg, hs).rows|
    ensures var w := Consume(EMPTY_WORLD, cfg, hs);
      var row := w.rows[i];
      var held := Moves(w.log, row.id, Capturing) - Moves(w.log, row.id, Refunding);
      && ((held == if row.status == Paid then 1 else 0) <==>
            Strays(w.log, row.id, Capturing) == Strays(w.log, row.id, Refunding))
      && ((forall kind, k | 0 <= k < |w.log| && Moved(w.log[k], row.id, kind) ::
             k + 1 < |w.log| && Commits(w.log[k + 1], row.id, Booked(kind)))
            ==> held == if row.status == Paid then 1 else 0)
  {
    ConsumerKeepsTheBooks(cfg, hs);
    var w := Consume(EMPTY_WORLD, cfg, hs);
    assert Balanced(w.log, w.rows[i]);
    NoStrays(w.log, w.rows[i].id, Capturing);
    NoStrays(w.log, w.rows[i].id, Refunding);
  }

  /** A move of money that no committed save follows at once. */
  predicate StrayAt(log: seq<Effect>, k: nat, id: string, kind: Kind)
    requires k < |log|
  {
    Moved(log[k], id, kind) && !(k + 1 < |log| && Commits(log[k + 1], id, Booked(kind)))
  }

  lemma {:induction false} SomeStray(log: seq<Effect>, id: string, kind: Kind)
    ensures Strays(log, id, kind) > 0 <==> exists k | 0 <= k < |log| :: StrayAt(log, k, id, kind)
  {
    if log != [] {
      SomeStray(log[1..], id, kind);
      assert StrayAt(log, 0, id, kind) <==> Strays(log, id, kind) > Strays(log[1..], id, kind);
      if k :| 0 <= k < |log| - 1 && StrayAt(log[1..], k, id, kind) { assert StrayAt(log, k + 1, id, kind); }
      if k :| 0 <= k < |log| && StrayAt(log, k, id, kind) {
        if k > 0 { assert StrayAt(log[1..], k - 1, id, kind); }
      }
    }
  }

  /** A charge that took the money but was reported as failed, or whose save was refused. */
  predicate Unbooked(log: seq<Effect>, k: nat, id: string, kind: Kind)
    requires k < |log|
  {
    && Charges(log[k], id, kind)
    && (|| log[k].outcome == Lost
        || (log[k].outcome == Done && k + 1 < |log| && log[k + 1] == SaveCall(id, Booked(kind), Refused)))
  }

  /** The strays are what these two faults leave behind. */
  lemma StraysAreUnbooked(log: seq<Effect>, k: nat, row: Row, kind: Kind)
    requires Followed(log) && Ordered(log, row) && k < |log|
    ensures StrayAt(log, k, row.id, kind) <==> Unbooked(log, k, row.id, kind)
  {
    if Charges(log[k], row.id, kind) && log[k].outcome == Done { assert Reported(log[k], kind); }
    if k + 1 < |log| && Commits(log[k + 1], row.id, Booked(kind)) { assert log[k].outcome == Done; }
  }

  /** Exactly when a failed payment has been captured, on every run of the consumer: if some capture of
      it took the money but was reported as failed, or the save right after some capture was refused. */
  lemma FailedAndCaptured(cfg: Config, hs: seq<Handled>, i: nat)
    requires i < |Consume(EMPTY_WORLD, cfg, hs).rows| && Consume(EMPTY_WORLD, cfg, hs).rows[i].status == Failed
    ensures var w := Consume(EMPTY_WORLD, cfg, hs);
      Moves(w.log, w.rows[i].id, Capturing) > 0 <==>
        exists k | 0 <= k < |w.log| :: Unbooked(w.log, k, w.rows[i].id, Capturing)
  {
    ConsumerKeepsTheBooks(cfg, hs);
    var w := Consume(EMPTY_WORLD, cfg, hs);
    var row := w.rows[i];
    assert Balanced(w.log, row);
    SomeStray(w.log, row.id, Capturing);
    forall k | 0 <= k < |w.log|
      ensures StrayAt(w.log, k, row.id, Capturing) <==> Unbooked(w.log, k, row.id, Capturing)
    {
      StraysAreUnbooked(w.log, k, row, Capturing);
    }
  }

  /** It does happen: if the save after a capture fails and the order is cancelled before the placement
      is tried again, then the payment fails with the money taken. */
  lemma FailedMayBeCaptured(stop: Env, clean: Env, w: World, cfg: Config, order: string)
    requires Good(w) && LatestFor(w.rows, order) < |w.rows| && w.rows[LatestFor(w.rows, order)].status == Pending
    requires forall k | k >= w.calls :: stop.outcome(k) == if k == w.calls + 3 then Refused else Done
    requires AllDone(clean, w.calls)
    ensures var i := LatestFor(w.rows, order);
      var w2 := HandleCancelled(clean, HandlePlaced(stop, w, cfg, order).0, order).0;
      && |w2.rows| == |w.rows| && w2.rows[i].id == w.rows[i].id && w2.rows[i].status == Failed
      && Moves(w2.log, w.rows[i].id, Capturing) == Moves(w.log, w.rows[i].id, Capturing) + 1
  {
    var i := LatestFor(w.rows, order);
    var row := w.rows[i];
    var captured := [Move(row, Capturing, Done), SaveCall(row.id, Paid, Refused)];
    CapturedNotSaved(stop, w, cfg, order);
    var w1 := HandlePlaced(stop, w, cfg, order).0;
    MovesAppend(w.log, captured, row.id, Capturing);
    CountTwo(captured[0], captured[1], row.id, Capturing);
    CancelledTakesNothing(clean, w1, cfg, order);
  }

  lemma CapturedNotSaved(stop: Env, w: World, cfg: Config, order: string)
    requires Good(w) && LatestFor(w.rows, order) < |w.rows| && w.rows[LatestFor(w.rows, order)].status == Pending
    requires forall k | k >= w.calls :: stop.outcome(k) == if k == w.calls + 3 then Refused else Done
    ensures var row := w.rows[LatestFor(w.rows, order)];
      HandlePlaced(stop, w, cfg, order).0
        == w.(log := w.log + [Move(row, Capturing, Done), SaveCall(row.id, Paid, Refused)], calls := w.calls + 4)
  {
    var i := LatestFor(w.rows, order);
    LoadsTheRow(stop, w, i);
    assert IsUuid(order) by { assert SoundRow(w.outbox, w.issued, w.rows[i]); }
    ExecuteNotSaved(stop, Tick(w), i);
    assert HandlePlaced(stop, w, cfg, order) == Settle(stop, Tick(w), Scanned(w.rows[i]));
  }

  lemma ExecuteNotSaved(stop: Env, w: World, i: nat)
    requires Sound(w) && i < |w.rows| && w.rows[i].status == Pending
    requires stop.outcome(w.calls) == Done && stop.outcome(w.calls + 1) == Done && stop.outcome(w.calls + 2) == Refused
    ensures Execute(stop, w, w.rows[i].id, MarkPaid)
         == (w.(log := w.log + [Move(w.rows[i], Capturing, Done), SaveCall(w.rows[i].id, Paid, Refused)],
                calls := w.calls + 3),
             Some(StoreFailed))
  {
    var row := w.rows[i];
    var (q, events) := Apply(Scanned(row), MarkPaid).value;
    var w2 := w.(log := w.log + [Move(row, Capturing, Done)], calls := w.calls + 2);
    assert Charge(stop, Tick(w), MarkPaid, q) == (w2, None);
    assert Execute(stop, w, row.id, MarkPaid) == SaveStep(stop, w2, q, events) by { LoadsById(stop, w, i); }
    assert w2.log + [SaveCall(row.id, Paid, Refused)]
        == w.log + [Move(row, Capturing, Done), SaveCall(row.id, Paid, Refused)];
  }

  lemma CancelledTakesNothing(env: Env, w: World, cfg: Config, order: string)
    requires Good(w) && LatestFor(w.rows, order) < |w.rows| && w.rows[LatestFor(w.rows, order)].status == Pending
    requires AllDone(env, w.calls)
    ensures var i := LatestFor(w.rows, order);
      var w' := HandleCancelled(env, w, order).0;
      && |w'.rows| == |w.rows| && w'.rows[i].id == w.rows[i].id && w'.rows[i].status == Failed
      && Moves(w'.log, w.rows[i].id, Capturing) == Moves(w.log, w.rows[i].id, Capturing)
  {
    var i := LatestFor(w.rows, order);
    assert IsUuid(order) by { assert SoundRow(w.outbox, w.issued, w.rows[i]); }
    LoadsTheRow(env, w, i);
    CancelledOnRow(env, w, cfg, order, order);
    var chunk := ExecuteChunk(env, Tick(w), i, MarkFailed(CANCEL_REASON));
    MovesAppend(w.log, chunk, w.rows[i].id, Capturing);
    if chunk != [] { CountOne(chunk[0], w.rows[i].id, Capturing); }
  }

  // ----- what a command asks of the provider -----

  /** The effects of an accepted command on this row whose load is call k: the charge, if it has one, and
      the save, which is not attempted after a charge that did not come back as done. */
  function Trail(env: Env, k: nat, row: Row, c: Command): seq<Effect> {
    match c
    case MarkPaid =>
      [CaptureCall(row.id, row.amount, row.currency, env.outcome(k + 1))]
      + if env.outcome(k + 1) == Done then [SaveCall(row.id, Paid, env.outcome(k + 2))] else []
    case MarkFailed(_) => [SaveCall(row.id, Failed, env.outcome(k + 1))]
    case Refund =>
      [RefundCall(row.id, env.outcome(k + 1))]
      + if env.outcome(k + 1) == Done then [SaveCall(row.id, Refunded, env.outcome(k + 2))] else []
  }

  /** The command is taken on a row that its load has found. */
  predicate Taken(env: Env, w: World, row: Row, c: Command) { env.outcome(w.calls) == Done && Takes(Scanned(row), c) }

  /** Every command on every payment, consumer or not: it asks nothing of the provider and saves nothing
      unless it is taken; then it captures or refunds exactly once or, for a failure, not at all, and saves
      if that is done; and it succeeds exactly if every call does. */
  lemma CommandTrail(env: Env, w: World, i: nat, c: Command)
    requires Sound(w) && i < |w.rows|
    ensures LeavesTrail(env, w, w.rows[i], c, Execute(env, w, w.rows[i].id, c))
  {
    ExecuteOnRow(env, w, i, c);
    assert SoundRow(w.outbox, w.issued, w.rows[i]);
    TrailOnRow(env, w, w.rows[i], c, Execute(env, w, w.rows[i].id, c));
  }

  ghost predicate LeavesTrail(env: Env, w: World, row: Row, c: Command, after: (World, Option<Error>)) {
    if Taken(env, w, row, c) then Trailed(Tick(w), after.0, after.1, Trail(env, w.calls, row, c))
    else after.0 == Tick(w) && after.1 != None
  }

  lemma TrailOnRow(env: Env, w: World, row: Row, c: Command, after: (World, Option<Error>))
    requires Scanned(row).WellFormed() && IsUuid(row.id) && IsUuid(row.orderId) && FitsColumn(row.amount)
    requires after == if env.outcome(w.calls) != Done then (Tick(w), Some(StoreFailed)) else
      match Apply(Scanned(row), c)
      case Failure(e) => (Tick(w), Some(e))
      case Success((q, events)) => ChargeAndSave(env, Tick(w), c, q, events)
    ensures LeavesTrail(env, w, row, c, after)
  {
    Acceptance(Scanned(row), c);
    if Taken(env, w, row, c) {
      var (q, events) := Apply(Scanned(row), c).value;
      ChargeAndSaveTrail(env, Tick(w), row, c, q, events);
    }
  }

  lemma ExecuteOnRow(env: Env, w: World, i: nat, c: Command)
    requires Sound(w) && i < |w.rows|
    ensures Execute(env, w, w.rows[i].id, c)
         == if env.outcome(w.calls) != Done then (Tick(w), Some(StoreFailed)) else
              match Apply(Scanned(w.rows[i]), c)
              case Failure(e) => (Tick(w), Some(e))
              case Success((q, events)) => ChargeAndSave(env, Tick(w), c, q, events)
  {
    LoadsById(env, w, i);
  }

  /** These effects, and success exactly if all of them are done. */
  ghost predicate Trailed(w: World, w': World, err: Option<Error>, trail: seq<Effect>) {
    && w'.log == w.log + trail && w'.calls == w.calls + |trail|
    && (err == None <==> forall e | e in trail :: e.outcome == Done)
  }

  lemma ChargeAndSaveTrail(env: Env, w: World, row: Row, c: Command, q: Snapshot, events: seq<DomainEvent>)
    requires w.calls > 0 && IsUuid(q.id) && IsUuid(q.orderId) && FitsColumn(q.amount)
    requires q == Scanned(row).(status := Goal(c), failureReason := Cause(c))
    ensures var (w', err) := ChargeAndSave(env, w, c, q, events);
      Trailed(w, w', err, Trail(env, w.calls - 1, row, c))
  {
    var (w1, err) := Charge(env, w, c, q);
    var save := SaveCall(row.id, Goal(c), env.outcome(w1.calls));
    if err == None { SaveIs(env, w1, q, events); }
    match c
    case MarkPaid => assert w.log + [CaptureCall(row.id, row.amount, row.currency, env.outcome(w.calls))] == w1.log;
    case MarkFailed(_) => assert w1 == w;
    case Refund => assert w.log + [RefundCall(row.id, env.outcome(w.calls))] == w1.log;
  }

  /** Every call from number k on and before number n came back as done. */
  ghost predicate EveryCallDone(env: Env, k: nat, n: nat) { forall m | k <= m < n :: env.outcome(m) == Done }

  /** Success is reported exactly if every call from number k on came back as done. */
  ghost predicate Reports(env: Env, k: nat, after: (World, Option<Error>)) {
    after.0.calls >= k && (after.1 == None <==> EveryCallDone(env, k, after.0.calls))
  }

  lemma Chained(env: Env, k: nat, m: nat, n: nat)
    requires k <= m <= n
    ensures EveryCallDone(env, k, n) <==> EveryCallDone(env, k, m) && EveryCallDone(env, m, n)
  {}

  /** One call, and then the rest if it came back as done. */
  lemma OneCallThen(env: Env, w: World, k: nat, after: (World, Option<Error>))
    requires w.calls == k
    requires if env.outcome(k) == Done then Reports(env, k + 1, after) else after == (Tick(w), Some(StoreFailed))
    ensures Reports(env, k, after)
  {
    if env.outcome(k) == Done { Chained(env, k, k + 1, after.0.calls); }
  }

  /** A part that may fail, and then the rest if it did not. */
  lemma PartThen(env: Env, k: nat, part: (World, Option<Error>), after: (World, Option<Error>))
    requires Reports(env, k, part)
    requires if part.1 == None then Reports(env, part.0.calls, after) else after == part
    ensures Reports(env, k, after)
  {
    if part.1 == None { Chained(env, k, part.0.calls, after.0.calls); }
  }

  lemma ExecuteSucceeds(env: Env, w: World, i: nat, c: Command)
    requires Sound(w) && i < |w.rows| && Takes(Scanned(w.rows[i]), c)
    ensures Reports(env, w.calls, Execute(env, w, w.rows[i].id, c))
  {
    CommandTrail(env, w, i, c);
    TrailReports(env, w, w.rows[i], c, Execute(env, w, w.rows[i].id, c));
  }

  lemma TrailReports(env: Env, w: World, row: Row, c: Command, after: (World, Option<Error>))
    requires LeavesTrail(env, w, row, c, after) && Takes(Scanned(row), c)
    ensures Reports(env, w.calls, after)
  {
    if env.outcome(w.calls) == Done {
      TrailOutcomes(env, w.calls, row, c);
      Chained(env, w.calls, w.calls + 1, after.0.calls);
    }
  }

  lemma TrailOutcomes(env: Env, k: nat, row: Row, c: Command)
    ensures var trail := Trail(env, k, row, c);
      (forall e | e in trail :: e.outcome == Done) <==> EveryCallDone(env, k + 1, k + 1 + |trail|)
  {
    var trail := Trail(env, k, row, c);
    assert trail[0] in trail && trail[0].outcome == env.outcome(k + 1);
    if |trail| == 2 { assert trail[1] in trail && trail[1].outcome == env.outcome(k + 2); }
  }

  /** A payment is paid, and then loaded again. */
  lemma PaidAndLoaded(env: Env, w: World, i: nat)
    requires Sound(w) && i < |w.rows| && w.rows[i].status == Pending
    ensures var (w1, err) := Execute(env, w, w.rows[i].id, MarkPaid);
      err == None ==>
        && |w1.rows| == |w.rows| && w1.rows[i].status == Paid
        && LoadById(env, w1, w.rows[i].id)
           == (Tick(w1), if env.outcome(w1.calls) == Done then Success(Scanned(w1.rows[i])) else Failure(StoreFailed))
  {
    ExecuteEffect(env, w, i, MarkPaid);
    LoadsById(env, Execute(env, w, w.rows[i].id, MarkPaid).0, i);
    MarkedPaidIsPaid(Scanned(w.rows[i]));
  }

  lemma SettleSucceeds(env: Env, w: World, i: nat)
    requires Sound(w) && i < |w.rows|
    ensures Reports(env, w.calls, Settle(env, w, Scanned(w.rows[i])))
  {
    if w.rows[i].status == Pending {
      var part := Execute(env, w, w.rows[i].id, MarkPaid);
      PaidAndLoaded(env, w, i);
      ExecuteSucceeds(env, w, i, MarkPaid);
      if part.1 == None { OneCallThen(env, part.0, part.0.calls, Settle(env, w, Scanned(w.rows[i]))); }
      PartThen(env, w.calls, part, Settle(env, w, Scanned(w.rows[i])));
    }
  }

  lemma PayNewSucceeds(env: Env, w: World, i: nat)
    requires Sound(w) && i < |w.rows| && w.rows[i].status == Pending
    ensures Reports(env, w.calls, PayNew(env, w, w.rows[i].id))
  {
    var part := Execute(env, w, w.rows[i].id, MarkPaid);
    PaidAndLoaded(env, w, i);
    ExecuteSucceeds(env, w, i, MarkPaid);
    if part.1 == None { OneCallThen(env, part.0, part.0.calls, PayNew(env, w, w.rows[i].id)); }
    PartThen(env, w.calls, part, PayNew(env, w, w.rows[i].id));
  }

  lemma PlaceNewSucceeds(env: Env, w: World, cfg: Config, orderId: string, order: string)
    requires Sound(w) && Canonical(orderId) == Some(order)
    ensures if Usable(cfg) then Reports(env, w.calls, PlaceNew(env, w, cfg, orderId))
            else PlaceNew(env, w, cfg, orderId).1 != None
  {
    CreateEffect(env, w, cfg, orderId, order);
    var (w1, created) := CreateStep(env, w, orderId, cfg.amount, cfg.currency);
    var part := (w1, if created.Success? then None else Some(created.error));
    if created.Success? {
      assert w1.rows[|w.rows|].status == Pending by { assert Anonymous(Scanned(w1.rows[|w.rows|])) == NewView(cfg, order); }
      PayNewSucceeds(env, w1, |w.rows|);
    }
    if Usable(cfg) { PartThen(env, w.calls, part, PlaceNew(env, w, cfg, orderId)); }
  }

  lemma CancelSucceeds(env: Env, w: World, i: nat)
    requires Sound(w) && i < |w.rows|
    ensures Reports(env, w.calls, Cancel(env, w, Scanned(w.rows[i])))
  {
    if w.rows[i].status == Paid {
      ExecuteSucceeds(env, w, i, Refund);
    } else if w.rows[i].status == Pending {
      assert !Blank(CANCEL_REASON) by { assert !IsSpace(CANCEL_REASON[0]); }
      ExecuteSucceeds(env, w, i, MarkFailed(CANCEL_REASON));
    }
  }

  /** When an attempt reports success: always for a message that is ignored and never for one that does not
      decode, and neither does anything; for the others exactly if the order id is a UUID, every call that
      the attempt makes comes back as done, and no payment has to be created that the settings forbid. */
  lemma AttemptSucceeds(env: Env, w: World, cfg: Config, d: Delivery)
    requires Good(w)
    ensures var (w', err) := Handle(env, w, cfg, d);
      match d
      case Ignored => w' == w && err == None
      case Broken => w' == w && err != None
      case _ =>
        err == None <==>
          && Canonical(d.orderId).Some? && EveryCallDone(env, w.calls, w'.calls)
          && (d.Placed? && View(w, Canonical(d.orderId).value) == None ==> Usable(cfg))
  {
    if (d.Placed? || d.Cancelled?) && Canonical(d.orderId).Some? {
      var order := Canonical(d.orderId).value;
      if d.Placed? { PlacedSucceeds(env, w, cfg, d.orderId, order); } else { CancelledSucceeds(env, w, d.orderId, order); }
    }
  }

  lemma PlacedSucceeds(env: Env, w: World, cfg: Config, orderId: string, order: string)
    requires Good(w) && Canonical(orderId) == Some(order)
    ensures if View(w, order) == None && !Usable(cfg) then HandlePlaced(env, w, cfg, orderId).1 != None
            else Reports(env, w.calls, HandlePlaced(env, w, cfg, orderId))
  {
    var i := LatestFor(w.rows, order);
    if i < |w.rows| {
      PlacedOnLoad(env, w, cfg, orderId, order);
      SettleSucceeds(env, Tick(w), i);
    } else {
      PlacesNew(env, w, cfg, orderId, order);
      PlaceNewSucceeds(env, Tick(w), cfg, orderId, order);
    }
    if View(w, order) != None || Usable(cfg) { OneCallThen(env, w, w.calls, HandlePlaced(env, w, cfg, orderId)); }
  }

  lemma PlacedOnLoad(env: Env, w: World, cfg: Config, orderId: string, order: string)
    requires Good(w) && Canonical(orderId) == Some(order) && LatestFor(w.rows, order) < |w.rows|
    ensures HandlePlaced(env, w, cfg, orderId)
         == if env.outcome(w.calls) == Done then Settle(env, Tick(w), Scanned(w.rows[LatestFor(w.rows, order)]))
            else (Tick(w), Some(StoreFailed))
  {
    LoadsTheRow(env, w, LatestFor(w.rows, order));
  }

  lemma CancelledOnLoad(env: Env, w: World, orderId: string, order: string)
    requires Good(w) && Canonical(orderId) == Some(order)
    ensures var i := LatestFor(w.rows, order);
      HandleCancelled(env, w, orderId)
      == if env.outcome(w.calls) != Done then (Tick(w), Some(StoreFailed))
         else if i == |w.rows| then (Tick(w), None) else Cancel(env, Tick(w), Scanned(w.rows[i]))
  {
    var i := LatestFor(w.rows, order);
    if i < |w.rows| { LoadsTheRow(env, w, i); }
  }

  lemma CancelledSucceeds(env: Env, w: World, orderId: string, order: string)
    requires Good(w) && Canonical(orderId) == Some(order)
    ensures Reports(env, w.calls, HandleCancelled(env, w, orderId))
  {
    var i := LatestFor(w.rows, order);
    CancelledOnLoad(env, w, orderId, order);
    if i < |w.rows| { CancelSucceeds(env, Tick(w), i); }
    OneCallThen(env, w, w.calls, HandleCancelled(env, w, orderId));
  }

  function RefundRequests(log: seq<Effect>): nat {
    if log == [] then 0 else (if log[0].RefundCall? then 1 else 0) + RefundRequests(log[1..])
  }

  lemma {:induction false} RefundRequestsAppend(a: seq<Effect>, b: seq<Effect>)
    ensures RefundRequests(a + b) == RefundRequests(a) + RefundRequests(b)
  {
    if a == [] {
      assert a + b == b;
    } else {
      RefundRequestsAppend(a[1..], b);
      assert (a + b)[1..] == a[1..] + b;
    }
  }

  lemma TrailRequests(env: Env, k: nat, row: Row, c: Command)
    ensures Requests(Trail(env, k, row, c)) == if c == MarkPaid then 1 else 0
    ensures RefundRequests(Trail(env, k, row, c)) == if c == Refund then 1 else 0
  {
    var trail := Trail(env, k, row, c);
    var rest := trail[1..];
    assert trail == [trail[0]] + rest;
    RequestsAppend([trail[0]], rest);
    RefundRequestsAppend([trail[0]], rest);
    OneRequest(trail[0]);
    if rest != [] {
      assert rest == [rest[0]] && rest[0].SaveCall?;
      OneRequest(rest[0]);
    }
  }

  lemma OneRequest(e: Effect)
    ensures Requests([e]) == if e.CaptureCall? then 1 else 0
    ensures RefundRequests([e]) == if e.RefundCall? then 1 else 0
  {
    assert [e][1..] == [];
  }

  /** MarkPaid asks for a capture exactly if its load succeeds and the payment is pending or paid already,
      Refund asks for a refund exactly if it is paid or refunded already, whatever becomes of these calls
      and of the save, and no command asks for anything else. */
  lemma ProviderRequests(env: Env, w: World, i: nat, c: Command)
    requires Sound(w) && i < |w.rows|
    ensures var w' := Execute(env, w, w.rows[i].id, c).0;
      var loaded, status := env.outcome(w.calls) == Done, w.rows[i].status;
      && Requests(w'.log)
         == Requests(w.log) + (if c == MarkPaid && loaded && status in {Pending, Paid} then 1 else 0)
      && RefundRequests(w'.log)
         == RefundRequests(w.log) + (if c == Refund && loaded && status in {Paid, Refunded} then 1 else 0)
  {
    CommandTrail(env, w, i, c);
    var trail := Trail(env, w.calls, w.rows[i], c);
    RequestsAppend(w.log, trail);
    RefundRequestsAppend(w.log, trail);
    TrailRequests(env, w.calls, w.rows[i], c);
  }

  /** MarkPaid n times in succession on one payment. */
  function MarkedPaid(env: Env, w: World, id: string, n: nat): World {
    if n == 0 then w else Execute(env, MarkedPaid(env, w, id, n - 1), id, MarkPaid).0
  }

  lemma MarkPaidDone(env: Env, w: World, i: nat)
    requires Sound(w) && i < |w.rows| && w.rows[i].status in {Pending, Paid} && AllDone(env, w.calls)
    ensures var w' := Execute(env, w, w.rows[i].id, MarkPaid).0;
      && Sound(w') && w'.calls >= w.calls && |w'.rows| == |w.rows|
      && w'.rows[i].id == w.rows[i].id && w'.rows[i].status == Paid
      && Requests(w'.log) == Requests(w.log) + 1
  {
    ExecuteEffect(env, w, i, MarkPaid);
    ProviderRequests(env, w, i, MarkPaid);
    MarkedPaidIsPaid(Scanned(w.rows[i]));
    assert Scanned(Execute(env, w, w.rows[i].id, MarkPaid).0.rows[i]).status == Paid;
  }

  lemma MarkedPaidIsPaid(p: Snapshot)
    requires p.status in {Pending, Paid}
    ensures Apply(p, MarkPaid).Success? && Apply(p, MarkPaid).value.0.status == Paid
  {}

  /** So without faults every repetition on a payment that is pending or paid is one more capture. */
  lemma {:induction false} EveryRepetitionCaptures(env: Env, w: World, i: nat, n: nat)
    requires Sound(w) && i < |w.rows| && w.rows[i].status in {Pending, Paid} && AllDone(env, w.calls)
    ensures var w' := MarkedPaid(env, w, w.rows[i].id, n);
      && Sound(w') && w'.calls >= w.calls && |w'.rows| == |w.rows| && w'.rows[i].id == w.rows[i].id
      && w'.rows[i].status == (if n == 0 then w.rows[i].status else Paid)
      && Requests(w'.log) == Requests(w.log) + n
  {
    if n > 0 {
      EveryRepetitionCaptures(env, w, i, n - 1);
      MarkPaidDone(env, MarkedPaid(env, w, w.rows[i].id, n - 1), i);
    }
  }
}
