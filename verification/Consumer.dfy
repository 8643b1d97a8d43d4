// The order events consumer of the payment service:
// payment/infrastructure/order_events_consumer.go.
module Consumer {
  import opened Wrappers
  import opened Faults
  import opened Text
  import opened Uuids
  import opened Payments
  import opened PaymentStore
  import opened PaymentCommands

  /** body is the order id in the JSON payload, or None if the payload does not decode. */
  datatype Message = Message(headers: seq<(string, string)>, body: Option<string>)

  datatype Delivery = Placed(orderId: string) | Cancelled(orderId: string) | Ignored | Broken

  /** The amount and currency of the payments that the consumer creates. */
  datatype Config = Config(amount: int, currency: string)

  const CANCEL_REASON := "order_cancelled"

  // ----- decoding -----

  function Fold(c: char): char { if 'A' <= c <= 'Z' then c + 32 as char else c }

  /** strings.EqualFold against a key without k and s, whose only fold partners are ASCII. */
  predicate EqualFold(a: string, b: string) {
    |a| == |b| && forall i | 0 <= i < |a| :: Fold(a[i]) == Fold(b[i])
  }

  /** The value of the first header whose key matches, or the empty string. */
  method HeaderValue(headers: seq<(string, string)>, key: string) returns (value: string)
    ensures (exists i | 0 <= i < |headers| :: IsFirst(headers, key, i) && value == headers[i].1)
         || (value == "" && forall i | 0 <= i < |headers| :: !EqualFold(headers[i].0, key))
  {
    for i := 0 to |headers|
      invariant forall j | 0 <= j < i :: !EqualFold(headers[j].0, key)
    {
      if EqualFold(headers[i].0, key) {
        assert IsFirst(headers, key, i);
        return headers[i].1;
      }
    }
    return "";
  }

  predicate IsFirst(headers: seq<(string, string)>, key: string, i: nat)
    requires i < |headers|
  {
    EqualFold(headers[i].0, key) && forall j | 0 <= j < i :: !EqualFold(headers[j].0, key)
  }

  function FirstHeader(headers: seq<(string, string)>, key: string): string {
    if headers == [] then ""
    else if EqualFold(headers[0].0, key) then headers[0].1
    else FirstHeader(headers[1..], key)
  }

  lemma {:induction false} FirstHeaderIsFirst(headers: seq<(string, string)>, key: string)
    ensures forall i | 0 <= i < |headers| && IsFirst(headers, key, i) :: FirstHeader(headers, key) == headers[i].1
    ensures (forall i | 0 <= i < |headers| :: !EqualFold(headers[i].0, key)) ==> FirstHeader(headers, key) == ""
  {
    if headers != [] && !EqualFold(headers[0].0, key) {
      FirstHeaderIsFirst(headers[1..], key);
      forall i | 0 <= i < |headers| && IsFirst(headers, key, i)
        ensures FirstHeader(headers, key) == headers[i].1
      {
        assert IsFirst(headers[1..], key, i - 1) by {
          forall j | 0 <= j < i - 1 ensures !EqualFold(headers[1..][j].0, key) {
            assert headers[1..][j] == headers[j + 1];
          }
        }
      }
    }
  }

  function Decode(m: Message): Delivery {
    var name := FirstHeader(m.headers, "event_name");
    if name == "OrderPlaced" then (if m.body.Some? then Placed(m.body.value) else Broken)
    else if name == "OrderCancelled" then (if m.body.Some? then Cancelled(m.body.value) else Broken)
    else Ignored
  }

  /** Two keys match exactly if they are the same but for the case of letters. */
  lemma KeysMatch(a: string, b: string)
    ensures EqualFold(a, b) <==>
      |a| == |b| && forall i | 0 <= i < |a| :: a[i] == b[i] || SameLetter(a[i], b[i]) || SameLetter(b[i], a[i])
  {
    assert forall c: char, d: char :: Fold(c) == Fold(d) <==> c == d || SameLetter(c, d) || SameLetter(d, c);
  }

  predicate SameLetter(upper: char, lower: char) { 'A' <= upper <= 'Z' && lower as int == upper as int + 32 }

  /** What a message means, by its first event_name header. */
  lemma Decoding(m: Message)
    ensures forall i | 0 <= i < |m.headers| && IsFirst(m.headers, "event_name", i) ::
      var name := m.headers[i].1;
      && (name == "OrderPlaced" && m.body.Some? ==> Decode(m) == Placed(m.body.value))
      && (name == "OrderCancelled" && m.body.Some? ==> Decode(m) == Cancelled(m.body.value))
      && (name in {"OrderPlaced", "OrderCancelled"} && m.body.None? ==> Decode(m) == Broken)
      && (name !in {"OrderPlaced", "OrderCancelled"} ==> Decode(m) == Ignored)
    ensures (forall i | 0 <= i < |m.headers| :: !EqualFold(m.headers[i].0, "event_name")) ==> Decode(m) == Ignored
  {
    FirstHeaderIsFirst(m.headers, "event_name");
  }

  // ----- one handler attempt -----

  function HandlePlaced(env: Env, w: World, cfg: Config, orderId: string): (World, Option<Error>) {
    var (w1, found) := LoadByOrder(env, w, orderId);
    match found
    case Success(p) => Settle(env, w1, p)
    case Failure(e) =>
      if e != NotFound then (w1, Some(e)) else PlaceNew(env, w1, cfg, orderId)
  }

  /** The first branch: the order has no payment yet. */
  function PlaceNew(env: Env, w: World, cfg: Config, orderId: string): (World, Option<Error>) {
    var (w1, created) := CreateStep(env, w, orderId, cfg.amount, cfg.currency);
    if created.Failure? then (w1, Some(created.error)) else PayNew(env, w1, created.value)
  }

  /** A payment just created is paid and loaded again. */
  function PayNew(env: Env, w: World, id: string): (World, Option<Error>) {
    var (w1, err) := Execute(env, w, id, MarkPaid);
    if err.Some? then (w1, err) else
      var (w2, reloaded) := LoadById(env, w1, id);
      if reloaded.Failure? then (w2, Some(reloaded.error)) else Settle(env, w2, reloaded.value)
  }

  /** The second half of the handler: a payment found pending is paid and loaded again. */
  function Settle(env: Env, w: World, p: Snapshot): (World, Option<Error>) {
    if p.status != Pending then (w, None) else
      var (w1, err) := Execute(env, w, p.id, MarkPaid);
      if err.Some? then (w1, err) else
        var (w2, reloaded) := LoadById(env, w1, p.id);
        (w2, if reloaded.Failure? then Some(reloaded.error) else None)
  }

  function HandleCancelled(env: Env, w: World, orderId: string): (World, Option<Error>) {
    var (w1, found) := LoadByOrder(env, w, orderId);
    match found
    case Failure(e) => (w1, if e == NotFound then None else Some(e))
    case Success(p) => Cancel(env, w1, p)
  }

  function Cancel(env: Env, w: World, p: Snapshot): (World, Option<Error>) {
    if p.status == Paid then Execute(env, w, p.id, Refund)
    else if p.status == Pending then Execute(env, w, p.id, MarkFailed(CANCEL_REASON))
    else (w, None)
  }

  function Handle(env: Env, w: World, cfg: Config, d: Delivery): (World, Option<Error>) {
    match d
    case Placed(o) => HandlePlaced(env, w, cfg, o)
    case Cancelled(o) => HandleCancelled(env, w, o)
    case Ignored => (w, None)
    case Broken => (w, Some(Undecodable))
  }

  /** At most n attempts, until the first that succeeds. */
  function Attempts(env: Env, w: World, cfg: Config, d: Delivery, n: nat): (World, Option<Error>)
    decreases n
  {
    if n == 0 then (w, Some(Interrupted)) else
      var (w1, err) := Handle(env, w, cfg, d);
      if err == None || n == 1 then (w1, err) else Attempts(env, w1, cfg, d, n - 1)
  }

  /** The consumer's context during the retries of one message, by attempt from 1: has it ended before
      the attempt, and does it end in the sleep after it? */
  datatype Patience = Patience(ended: nat -> bool, interrupted: nat -> bool)

  /** How many of the attempts from a to n the context allows. */
  function Allowed(q: Patience, a: nat, n: nat): (m: nat)
    requires a <= n + 1
    ensures m <= n + 1 - a
    decreases n + 1 - a
  {
    if a == n + 1 || q.ended(a) then 0
    else if a == n || q.interrupted(a) then 1
    else 1 + Allowed(q, a + 1, n)
  }

  /** Attempt k is allowed exactly if the context has not ended by then, nor in a sleep before. */
  lemma {:induction false} AllowedSo(q: Patience, a: nat, n: nat, k: nat)
    requires a <= k <= n
    ensures k < a + Allowed(q, a, n) <==> forall j | a <= j <= k :: !q.ended(j) && (j < k ==> !q.interrupted(j))
    decreases n - a
  {
    if a < k { AllowedSo(q, a + 1, n, k); }
  }

  /** The retries of one message. */
  function Retried(env: Env, w: World, cfg: Config, d: Delivery, n: nat, q: Patience): (World, Option<Error>) {
    var m := Allowed(q, 1, n);
    var (w', err) := Attempts(env, w, cfg, d, m);
    (w', if err == None then None else if m < n then Some(Interrupted) else err)
  }

  /** The fetch loop over these messages: none is left out, whatever becomes of the others. */
  function HandleAll(env: Env, w: World, cfg: Config, ms: seq<Message>, n: nat, q: nat -> Patience): World {
    if ms == [] then w else
      var k := |ms| - 1;
      Retried(env, HandleAll(env, w, cfg, ms[..k], n, q), cfg, Decode(ms[k]), n, q(k)).0
  }

  /** The offset after the commits of n messages, of which some may fail. */
  function Offset(commits: nat -> bool, n: nat): nat {
    if n == 0 then 0 else if commits(n - 1) then n else Offset(commits, n - 1)
  }

  /** It is past the last message whose commit went through. */
  lemma {:induction false} OffsetIsLastCommit(commits: nat -> bool, n: nat)
    ensures Offset(commits, n) <= n
    ensures Offset(commits, n) > 0 ==> commits(Offset(commits, n) - 1)
    ensures forall k | Offset(commits, n) <= k < n :: !commits(k)
  {
    if n > 0 && !commits(n - 1) { OffsetIsLastCommit(commits, n - 1); }
  }

  lemma HandleOneMore(env: Env, w: World, cfg: Config, ms: seq<Message>, i: nat, n: nat, q: nat -> Patience)
    requires i < |ms|
    ensures HandleAll(env, w, cfg, ms[..i + 1], n, q)
         == Retried(env, HandleAll(env, w, cfg, ms[..i], n, q), cfg, Decode(ms[i]), n, q(i)).0
  {
    assert ms[..i + 1][..i] == ms[..i];
  }

  // ----- the source's own form -----

  class OrderEventsConsumer {
    const backend: Backend
    const service: PaymentService
    const repository: PaymentRepository
    const config: Config
    const maxAttempts: nat

    ghost predicate Valid() {
      service.Valid() && service.backend == backend && repository.backend == backend && maxAttempts > 0
    }

    /** A non-positive amount and a blank currency are replaced, and so is a non-positive
        number of attempts. */
    constructor (backend: Backend, amount: int, currency: string, maxAttempts: int)
      ensures Valid() && this.backend == backend
      ensures config.amount == (if amount <= 0 then 1000 else amount)
      ensures config.currency == (if Trim(currency) == "" then "USD" else currency)
      ensures this.maxAttempts == if maxAttempts <= 0 then 3 else maxAttempts
    {
      this.backend := backend;
      service := new PaymentService(backend);
      repository := new PaymentRepository(backend);
      config := Config(if amount <= 0 then 1000 else amount, if Trim(currency) == "" then "USD" else currency);
      this.maxAttempts := if maxAttempts <= 0 then 3 else maxAttempts;
    }

    method HandleOrderPlaced(orderId: string) returns (err: Option<Error>)
      requires Valid()
      modifies backend
      ensures (backend.State(), err) == HandlePlaced(backend.env, old(backend.State()), config, orderId)
    {
      var payment := repository.GetByOrderID(orderId);
      if payment.Failure? {
        if payment.error != NotFound { return Some(payment.error); }
        var created := service.Create(orderId, config.amount, config.currency);
        if created.Failure? { return Some(created.error); }
        assert HandlePlaced(backend.env, old(backend.State()), config, orderId)
            == PayNew(backend.env, backend.State(), created.value);
        err := service.MarkPaid(created.value);
        if err.Some? { return; }
        payment := repository.GetByID(created.value);
        if payment.Failure? { return Some(payment.error); }
      }
      err := SettlePending(payment.value);
    }

    /** The end of the handler, on a payment that is in hand. */
    method SettlePending(payment: Payment) returns (err: Option<Error>)
      requires Valid()
      modifies backend
      ensures (backend.State(), err) == Settle(backend.env, old(backend.State()), old(payment.View()))
    {
      if payment.status == Pending {
        err := service.MarkPaid(payment.id);
        if err.Some? { return; }
        var reloaded := repository.GetByID(payment.id);
        if reloaded.Failure? { return Some(reloaded.error); }
      }
      return None;
    }

    method HandleOrderCancelled(orderId: string) returns (err: Option<Error>)
      requires Valid()
      modifies backend
      ensures (backend.State(), err) == HandleCancelled(backend.env, old(backend.State()), orderId)
    {
      var payment := repository.GetByOrderID(orderId);
      if payment.Failure? {
        if payment.error == NotFound { return None; }
        return Some(payment.error);
      }
      match payment.value.status {
        case Paid => err := service.Refund(payment.value.id);
        case Pending => err := service.MarkFailed(payment.value.id, CANCEL_REASON);
        case _ => err := None;
      }
    }

    method HandleMessage(message: Message) returns (err: Option<Error>)
      requires Valid()
      modifies backend
      ensures (backend.State(), err) == Handle(backend.env, old(backend.State()), config, Decode(message))
    {
      var name := HeaderValue(message.headers, "event_name");
      FirstHeaderIsFirst(message.headers, "event_name");
      if name == "OrderPlaced" {
        if message.body.None? { return Some(Undecodable); }
        err := HandleOrderPlaced(message.body.value);
      } else if name == "OrderCancelled" {
        if message.body.None? { return Some(Undecodable); }
        err := HandleOrderCancelled(message.body.value);
      } else {
        err := None;
      }
    }

    method HandleMessageWithRetry(message: Message, patience: Patience) returns (err: Option<Error>)
      requires Valid()
      modifies backend
      ensures (backend.State(), err)
           == Retried(backend.env, old(backend.State()), config, Decode(message), maxAttempts, patience)
    {
      ghost var w, d, m := backend.State(), Decode(message), Allowed(patience, 1, maxAttempts);
      var attempt := 1;
      while attempt <= maxAttempts
        invariant 1 <= attempt <= maxAttempts
        invariant m == attempt - 1 + Allowed(patience, attempt, maxAttempts)
        invariant Attempts(backend.env, backend.State(), config, d, Allowed(patience, attempt, maxAttempts)).0
               == Attempts(backend.env, w, config, d, m).0
        invariant attempt > 1 && patience.ended(attempt) ==> Attempts(backend.env, w, config, d, m).1 != None
        invariant !patience.ended(attempt) ==>
          Attempts(backend.env, backend.State(), config, d, Allowed(patience, attempt, maxAttempts)).1
            == Attempts(backend.env, w, config, d, m).1
        decreases maxAttempts - attempt
      {
        if patience.ended(attempt) { return Some(Interrupted); }
        err := HandleMessage(message);
        if err == None || attempt == maxAttempts { return; }
        if patience.interrupted(attempt) { return Some(Interrupted); }
        attempt := attempt + 1;
      }
      assert false;
      err := None;
    }

    /** Handles these messages one after the other and commits each, whether or not its handling
        succeeded; a commit that fails is only logged. */
    method Run(messages: seq<Message>, commits: nat -> bool, patience: nat -> Patience) returns (offset: nat)
      requires Valid()
      modifies backend
      ensures backend.State()
           == HandleAll(backend.env, old(backend.State()), config, messages, maxAttempts, patience)
      ensures offset == Offset(commits, |messages|)
    {
      offset := 0;
      for i := 0 to |messages|
        invariant offset == Offset(commits, i)
        invariant backend.State()
               == HandleAll(backend.env, old(backend.State()), config, messages[..i], maxAttempts, patience)
      {
        var err := HandleMessageWithRetry(messages[i], patience(i));
        HandleOneMore(backend.env, old(backend.State()), config, messages, i, maxAttempts, patience);
        if commits(i) { offset := i + 1; }
      }
      assert messages[..|messages|] == messages;
    }
  }
}
