/** The reserve, call, save protocol of concurrent executions over one keyed store. */
module Orchestrator {
  import opened Common
  import opened ExecutionModels
  import opened IdempotencyKeys

  datatype Result = Result(status: ExecutionStatus, orderId: Option<string>)

  datatype Record = Record(
    intentId: string, operationId: string, symbol: string, role: string,
    status: ExecutionStatus, orderId: Option<string>, protectionId: Option<string>)

  datatype Operation = OpenPosition | ClosePosition | CancelOrder | PlaceNative | ReplaceNative

  /** A protection is cancelled through the gateway's order cancellation. */
  function Dispatch(k: IntentKind): Operation {
    match k
    case Entry => OpenPosition
    case Close => ClosePosition
    case Cancel => CancelOrder
    case PlaceProtection => PlaceNative
    case ReplaceProtection => ReplaceNative
    case CancelProtection => CancelOrder
  }

  function Reserved(x: Intent): Record {
    Record(x.intentId, x.operationId, x.symbol, x.role, Submitted, None, None)
  }

  function Saved(x: Intent, r: Result): Record {
    Record(x.intentId, x.operationId, x.symbol, x.role, r.status, r.orderId,
           if IsOrder(x.kind) then None else r.orderId)
  }

  /**
   Where one execution stands between two awaits. Raised: `holding` says that its reservation had been written;
   RaisedSaved: its result had been.
   */
  datatype Phase =
    | Waiting
    | Looked(found: bool)
    | Won
    | Answered(result: Result)
    | Finished(result: Result)
    | Skipped
    | Raised(holding: bool)
    | RaisedSaved(result: Result)

  datatype Call = Call(intent: Intent, phase: Phase)

  datatype Sent = Sent(key: string, operation: Operation, call: nat)

  datatype State = State(store: map<string, Record>, calls: seq<Call>, sent: seq<Sent>)

  /**
   One uninterrupted piece of one execution. Reserve is the store's reservation as a single step; Look and Create
   are the two statements it is made of. A write of the store may raise after it is done (`raises`); Fail is an
   exception of the store before it wrote anything.
   */
  datatype Action =
    | Reserve(call: nat, raises: bool)
    | Look(call: nat)
    | Create(call: nat, raises: bool)
    | CallGateway(call: nat, reply: Option<Result>)
    | Save(call: nat, raises: bool)
    | Fail(call: nat)

  function Start(store: map<string, Record>, intents: seq<Intent>): State {
    State(store, seq(|intents|, i requires 0 <= i < |intents| => Call(intents[i], Waiting)), [])
  }

  function Moved(s: State, i: nat, p: Phase): (t: State)
    requires i < |s.calls|
    ensures |t.calls| == |s.calls|
  {
    s.(calls := s.calls[i := s.calls[i].(phase := p)])
  }

  /** An action that its execution is not ready for changes nothing. */
  function Step(s: State, a: Action): State {
    if a.call >= |s.calls| then s
    else
      var x, p, key := s.calls[a.call].intent, s.calls[a.call].phase, Key(s.calls[a.call].intent);
      match a
      case Reserve(i, raises) =>
        if p != Waiting then s
        else if key in s.store then Moved(s, i, Phase.Skipped)
        else Moved(s.(store := s.store[key := Reserved(x)]), i, if raises then Raised(true) else Won)
      case Look(i) =>
        if p != Waiting then s else Moved(s, i, Looked(key in s.store))
      case Create(i, raises) =>
        if !p.Looked? then s
        else if p.found then Moved(s, i, Phase.Skipped)
        else Moved(s.(store := s.store[key := Reserved(x)]), i, if raises then Raised(true) else Won)
      case CallGateway(i, reply) =>
        if p != Won then s
        else
          Moved(s.(sent := s.sent + [Sent(key, Dispatch(x.kind), i)]), i,
                if reply.Some? then Answered(reply.value) else Raised(true))
      case Save(i, raises) =>
        if !p.Answered? then s
        else
          Moved(s.(store := s.store[key := Saved(x, p.result)]), i,
                if raises then RaisedSaved(p.result) else Finished(p.result))
      case Fail(i) =>
        if p == Waiting || p.Looked? || p.Answered? then Moved(s, i, Raised(p.Answered?)) else s
  }

  function Run(s: State, actions: seq<Action>): State
    decreases |actions|
  {
    if actions == [] then s else Run(Step(s, actions[0]), actions[1..])
  }

  /** Reservations happen as one step. */
  predicate Atomic(actions: seq<Action>) {
    forall k :: 0 <= k < |actions| ==> !actions[k].Look? && !actions[k].Create?
  }

  // ---- The invariant of every interleaving ----

  predicate IsSaved(p: Phase) {
    p.Finished? || p.RaisedSaved?
  }

  /** The execution owns its key: it reserved it, whatever happened later. */
  predicate Holds(s: State, i: nat) {
    i < |s.calls| &&
    var p := s.calls[i].phase;
    p == Won || p.Answered? || IsSaved(p) || (p.Raised? && p.holding)
  }

  function KeyOf(s: State, i: nat): string
    requires i < |s.calls|
  {
    Key(s.calls[i].intent)
  }

  /** A held key is new, and its record is the holder's: as reserved, or as saved once finished. */
  predicate HeldRecord(initial: map<string, Record>, s: State, i: nat)
    requires i < |s.calls|
  {
    var c := s.calls[i];
    && Key(c.intent) in s.store && Key(c.intent) !in initial
    && s.store[Key(c.intent)] == if IsSaved(c.phase) then Saved(c.intent, c.phase.result) else Reserved(c.intent)
  }

  predicate SentByHolder(s: State, m: nat)
    requires m < |s.sent|
  {
    var e := s.sent[m];
    && Holds(s, e.call) && s.calls[e.call].phase != Won
    && e.key == KeyOf(s, e.call) && e.operation == Dispatch(s.calls[e.call].intent.kind)
  }

  predicate Apart(s: State, i: nat, j: nat)
    requires i < |s.calls| && j < |s.calls|
  {
    KeyOf(s, i) != KeyOf(s, j)
  }

  /** No two executions hold the same key. */
  ghost predicate KeysApart(s: State) {
    forall i: nat, j: nat {:trigger Apart(s, i, j)} :: i < j && Holds(s, i) && Holds(s, j) ==> Apart(s, i, j)
  }

  ghost predicate RecordsHeld(initial: map<string, Record>, s: State) {
    forall i: nat {:trigger Holds(s, i)} :: Holds(s, i) ==> HeldRecord(initial, s, i)
  }

  predicate InStore(s: State, k: string) {
    k in s.store
  }

  ghost predicate HeldBySome(s: State, k: string) {
    exists i: nat :: Holds(s, i) && KeyOf(s, i) == k
  }

  /** The store is the initial one and one record for each held key, nothing else. */
  ghost predicate StoreIsHeld(initial: map<string, Record>, s: State) {
    && (forall k :: k in initial ==> k in s.store && s.store[k] == initial[k])
    && (forall k {:trigger InStore(s, k)} :: InStore(s, k) && k !in initial ==> HeldBySome(s, k))
  }

  predicate SentTwice(s: State, m: nat, n: nat)
    requires m < |s.sent| && n < |s.sent|
  {
    s.sent[m].call == s.sent[n].call
  }

  /** The gateway was called once for each holder past its reservation, under the holder's key. */
  ghost predicate SentByHolders(s: State) {
    && (forall m: nat {:trigger SentByHolder(s, m)} :: m < |s.sent| ==> SentByHolder(s, m))
    && (forall m: nat, n: nat {:trigger SentTwice(s, m, n)} :: m < n < |s.sent| ==> !SentTwice(s, m, n))
  }

  predicate SkippedFound(s: State, i: nat) {
    i < |s.calls| && s.calls[i].phase == Phase.Skipped ==> KeyOf(s, i) in s.store
  }

  ghost predicate Invariant(initial: map<string, Record>, s: State) {
    && KeysApart(s)
    && RecordsHeld(initial, s)
    && StoreIsHeld(initial, s)
    && SentByHolders(s)
    && forall i: nat {:trigger SkippedFound(s, i)} :: SkippedFound(s, i)
  }

  lemma StartInvariant(store: map<string, Record>, intents: seq<Intent>)
    ensures Invariant(store, Start(store, intents))
  {
  }

  /** A create acts on what is still the case: the key is in the store exactly if it was when it looked. */
  predicate Fresh(s: State, a: Action) {
    a.Create? && a.call < |s.calls| && s.calls[a.call].phase.Looked? ==>
      (s.calls[a.call].phase.found <==> KeyOf(s, a.call) in s.store)
  }

  lemma HoldersDiffer(s: State, i: nat, j: nat)
    requires KeysApart(s) && Holds(s, i) && Holds(s, j) && i != j
    ensures KeyOf(s, i) != KeyOf(s, j)
  {
    assert if i < j then Apart(s, i, j) else Apart(s, j, i);
  }

  /** A step keeps intents and holders; a new holder is the one that moved, and its key was not in the store. */
  lemma StepAt(s: State, a: Action, i: nat)
    requires i < |s.calls| && Fresh(s, a)
    ensures |Step(s, a).calls| == |s.calls| && Step(s, a).calls[i].intent == s.calls[i].intent
    ensures i != a.call ==> Step(s, a).calls[i] == s.calls[i]
    ensures Holds(s, i) ==> Holds(Step(s, a), i)
    ensures Holds(Step(s, a), i) && !Holds(s, i) ==> i == a.call && KeyOf(s, i) !in s.store
  {
  }

  lemma StepKeepsKeysApart(initial: map<string, Record>, s: State, a: Action)
    requires Invariant(initial, s) && Fresh(s, a)
    ensures KeysApart(Step(s, a))
  {
    var t := Step(s, a);
    forall i: nat, j: nat | i < j && Holds(t, i) && Holds(t, j)
      ensures Apart(t, i, j)
    {
      StepAt(s, a, i);
      StepAt(s, a, j);
      if Holds(s, i) && Holds(s, j) {
        HoldersDiffer(s, i, j);
      } else {
        assert if Holds(s, i) then HeldRecord(initial, s, i) else HeldRecord(initial, s, j);
      }
    }
  }

  lemma StepKeepsRecords(initial: map<string, Record>, s: State, a: Action)
    requires Invariant(initial, s) && Fresh(s, a)
    ensures RecordsHeld(initial, Step(s, a))
  {
    var t := Step(s, a);
    forall i: nat | Holds(t, i)
      ensures HeldRecord(initial, t, i)
    {
      StepAt(s, a, i);
      if i == a.call {
        MoverRecord(initial, s, a);
      } else {
        assert HeldRecord(initial, s, i);
        StepElsewhere(initial, s, a, i);
      }
    }
  }

  /** The one that moved, when it holds a key, has its record written as it should be. */
  lemma MoverRecord(initial: map<string, Record>, s: State, a: Action)
    requires Invariant(initial, s) && Fresh(s, a) && Holds(Step(s, a), a.call)
    ensures HeldRecord(initial, Step(s, a), a.call)
  {
    assert Holds(s, a.call) ==> HeldRecord(initial, s, a.call);
    assert KeyOf(s, a.call) !in s.store ==> KeyOf(s, a.call) !in initial;
  }

  /** A step writes no record of another holder's. */
  lemma StepElsewhere(initial: map<string, Record>, s: State, a: Action, i: nat)
    requires Invariant(initial, s) && Fresh(s, a) && i != a.call && Holds(s, i)
    ensures KeyOf(s, i) in Step(s, a).store && Step(s, a).store[KeyOf(s, i)] == s.store[KeyOf(s, i)]
  {
    assert HeldRecord(initial, s, i);
    if Holds(s, a.call) {
      HoldersDiffer(s, i, a.call);
    }
  }

  lemma StepKeepsStore(initial: map<string, Record>, s: State, a: Action)
    requires Invariant(initial, s) && Fresh(s, a)
    ensures StoreIsHeld(initial, Step(s, a))
  {
    var t := Step(s, a);
    forall k | k in initial
      ensures k in t.store && t.store[k] == initial[k]
    {
      assert a.call < |s.calls| && Holds(s, a.call) ==> HeldRecord(initial, s, a.call);
    }
    forall k | InStore(t, k) && k !in initial
      ensures HeldBySome(t, k)
    {
      if InStore(s, k) {
        var i: nat :| Holds(s, i) && KeyOf(s, i) == k;
        StepAt(s, a, i);
        assert Holds(t, i) && KeyOf(t, i) == k;
      } else {
        assert Holds(t, a.call) && KeyOf(t, a.call) == k;
      }
    }
  }

  lemma StepKeepsSent(initial: map<string, Record>, s: State, a: Action)
    requires Invariant(initial, s)
    ensures SentByHolders(Step(s, a))
  {
    var t := Step(s, a);
    forall m: nat | m < |t.sent|
      ensures SentByHolder(t, m)
    {
      assert m < |s.sent| ==> SentByHolder(s, m);
    }
    forall m: nat, n: nat | m < n < |t.sent|
      ensures !SentTwice(t, m, n)
    {
      assert SentByHolder(s, m);
      assert n < |s.sent| ==> !SentTwice(s, m, n);
    }
  }

  lemma StepInvariant(initial: map<string, Record>, s: State, a: Action)
    requires Invariant(initial, s) && Fresh(s, a)
    ensures Invariant(initial, Step(s, a))
  {
    var t := Step(s, a);
    StepKeepsKeysApart(initial, s, a);
    StepKeepsRecords(initial, s, a);
    StepKeepsStore(initial, s, a);
    StepKeepsSent(initial, s, a);
    forall i: nat
      ensures SkippedFound(t, i)
    {
      assert SkippedFound(s, i);
    }
  }

  // ---- Whole interleavings ----

  /** No create of the run acts on a stale look. */
  predicate AllFresh(s: State, actions: seq<Action>)
    decreases |actions|
  {
    actions != [] ==> Fresh(s, actions[0]) && AllFresh(Step(s, actions[0]), actions[1..])
  }

  predicate NoneLooked(s: State) {
    forall i :: 0 <= i < |s.calls| ==> !s.calls[i].phase.Looked?
  }

  /** In particular a run whose reservations are one step each. */
  lemma {:induction false} AtomicIsFresh(s: State, actions: seq<Action>)
    requires Atomic(actions) && NoneLooked(s)
    ensures AllFresh(s, actions)
    decreases |actions|
  {
    if actions != [] {
      assert !actions[0].Look? && !actions[0].Create?;
      forall k | 0 <= k < |actions[1..]|
        ensures !actions[1..][k].Look? && !actions[1..][k].Create?
      {
        assert actions[1..][k] == actions[k + 1];
      }
      AtomicIsFresh(Step(s, actions[0]), actions[1..]);
    }
  }

  lemma {:induction false} RunInvariant(initial: map<string, Record>, s: State, actions: seq<Action>)
    requires Invariant(initial, s) && AllFresh(s, actions)
    ensures Invariant(initial, Run(s, actions))
    decreases |actions|
  {
    if actions != [] {
      StepInvariant(initial, s, actions[0]);
      RunInvariant(initial, Step(s, actions[0]), actions[1..]);
    }
  }

  /**
   However the executions interleave, as long as no create acts on a stale look, no key reaches the gateway twice, nor
   at all if the store already knew it, and each call to the gateway belongs to the one execution that reserved its key.
   */
  lemma AtMostOnce(store: map<string, Record>, intents: seq<Intent>, actions: seq<Action>)
    requires AllFresh(Start(store, intents), actions)
    ensures var s := Run(Start(store, intents), actions);
            && (forall m: nat, n: nat :: m < n < |s.sent| ==> s.sent[m].key != s.sent[n].key)
            && (forall m: nat :: m < |s.sent| ==> s.sent[m].key !in store && Holds(s, s.sent[m].call))
  {
    var s := Run(Start(store, intents), actions);
    StartInvariant(store, intents);
    RunInvariant(store, Start(store, intents), actions);
    forall m: nat | m < |s.sent|
      ensures s.sent[m].key !in store && Holds(s, s.sent[m].call)
    {
      assert SentByHolder(s, m) && HeldRecord(store, s, s.sent[m].call);
    }
    forall m: nat, n: nat | m < n < |s.sent|
      ensures s.sent[m].key != s.sent[n].key
    {
      assert SentByHolder(s, m) && SentByHolder(s, n) && !SentTwice(s, m, n);
      HoldersDiffer(s, s.sent[m].call, s.sent[n].call);
    }
  }

  /**
   The store remembers exactly what happened: a record carries the result once it was saved, even if the save
   then raised, and is as reserved before that; a skipped execution left no record of its own; nothing else
   appears or changes.
   */
  lemma StoreTellsTheRun(store: map<string, Record>, intents: seq<Intent>, actions: seq<Action>, k: string)
    requires AllFresh(Start(store, intents), actions)
    ensures var s := Run(Start(store, intents), actions);
            && (k in store ==> k in s.store && s.store[k] == store[k])
            && (k in s.store && k !in store ==> HeldBySome(s, k))
            && (forall i: nat :: Holds(s, i) && KeyOf(s, i) == k ==>
                  k in s.store &&
                  var c := s.calls[i];
                  s.store[k] == if IsSaved(c.phase) then Saved(c.intent, c.phase.result) else Reserved(c.intent))
            && (forall i: nat :: i < |s.calls| && s.calls[i].phase == Phase.Skipped && KeyOf(s, i) == k ==>
                  k in s.store && !Holds(s, i))
  {
    var s := Run(Start(store, intents), actions);
    StartInvariant(store, intents);
    RunInvariant(store, Start(store, intents), actions);
    assert k in s.store ==> InStore(s, k);
    forall i: nat | Holds(s, i) && KeyOf(s, i) == k
      ensures HeldRecord(store, s, i)
    {
    }
    forall i: nat | i < |s.calls| && s.calls[i].phase == Phase.Skipped && KeyOf(s, i) == k
      ensures k in s.store
    {
      assert SkippedFound(s, i);
    }
  }

  // ---- The two statements of the reservation ----

  /** Done back to back, the two halves of the reservation are the reservation. */
  lemma BackToBackIsAtomic(s: State, i: nat, raises: bool)
    ensures i < |s.calls| && s.calls[i].phase == Waiting ==>
              Step(Step(s, Look(i)), Create(i, raises)) == Step(s, Reserve(i, raises))
  {
  }

  /** Let another execution of the same intent in between, and both reach the gateway. */
  lemma SplitReservationSendsTwice(x: Intent)
    ensures var s := Run(Start(map[], [x, x]),
                         [Look(0), Look(1), Create(0, false), Create(1, false),
                          CallGateway(0, None), CallGateway(1, None)]);
            s.sent == [Sent(Key(x), Dispatch(x.kind), 0), Sent(Key(x), Dispatch(x.kind), 1)]
  {
  }

  predicate KeysDiffer(s: State, m: nat, n: nat)
    requires m < |s.sent| && n < |s.sent|
  {
    s.sent[m].key != s.sent[n].key
  }

  ghost predicate NoKeyTwice(s: State) {
    forall m: nat, n: nat {:trigger KeysDiffer(s, m, n)} :: m < n < |s.sent| ==> KeysDiffer(s, m, n)
  }

  predicate ShareNewKey(store: map<string, Record>, intents: seq<Intent>, i: nat, j: nat)
    requires i < |intents| && j < |intents|
  {
    Key(intents[i]) == Key(intents[j]) && Key(intents[i]) !in store
  }

  /** Intents of equal keys have theirs in the store already. */
  ghost predicate NewKeysDiffer(store: map<string, Record>, intents: seq<Intent>) {
    forall i: nat, j: nat {:trigger ShareNewKey(store, intents, i, j)} ::
      i < j < |intents| ==> !ShareNewKey(store, intents, i, j)
  }

  /** What an execution saw when it looked is still the case. */
  predicate LookHolds(s: State, i: nat)
    requires i < |s.calls|
  {
    s.calls[i].phase.Looked? ==> (s.calls[i].phase.found <==> KeyOf(s, i) in s.store)
  }

  ghost predicate LooksHold(s: State) {
    forall i: nat {:trigger LookHolds(s, i)} :: i < |s.calls| ==> LookHolds(s, i)
  }

  predicate RunsThese(s: State, intents: seq<Intent>) {
    |s.calls| == |intents| && forall i :: 0 <= i < |intents| ==> s.calls[i].intent == intents[i]
  }

  lemma LooksHoldStep(store: map<string, Record>, intents: seq<Intent>, s: State, a: Action)
    requires NewKeysDiffer(store, intents) && RunsThese(s, intents) && Invariant(store, s) && LooksHold(s)
    ensures Fresh(s, a) && LooksHold(Step(s, a)) && RunsThese(Step(s, a), intents)
  {
    var t := Step(s, a);
    if a.call < |s.calls| {
      assert LookHolds(s, a.call);
      forall i: nat | i < |t.calls|
        ensures LookHolds(t, i)
      {
        assert LookHolds(s, i);
        if i != a.call {
          LookUntouched(store, intents, s, a, i);
        }
      }
    }
  }

  /** Another execution's step puts no new key of this one into the store. */
  lemma LookUntouched(store: map<string, Record>, intents: seq<Intent>, s: State, a: Action, i: nat)
    requires NewKeysDiffer(store, intents) && RunsThese(s, intents) && Invariant(store, s)
    requires a.call < |s.calls| && i < |s.calls| && i != a.call && LookHolds(s, a.call)
    ensures KeyOf(s, i) in Step(s, a).store <==> KeyOf(s, i) in s.store
  {
    if Holds(s, a.call) {
      assert HeldRecord(store, s, a.call);
    }
    assert !ShareNewKey(store, intents, if i < a.call then i else a.call, if i < a.call then a.call else i);
  }

  lemma {:induction false} RunsAreFresh(
    store: map<string, Record>, intents: seq<Intent>, s: State, actions: seq<Action>)
    requires NewKeysDiffer(store, intents) && RunsThese(s, intents) && Invariant(store, s) && LooksHold(s)
    ensures AllFresh(s, actions)
    decreases |actions|
  {
    if actions != [] {
      LooksHoldStep(store, intents, s, actions[0]);
      StepInvariant(store, s, actions[0]);
      RunsAreFresh(store, intents, Step(s, actions[0]), actions[1..]);
    }
  }

  /** The interleaving by which two executions that share a new key both send. */
  function Race(i: nat, j: nat): seq<Action> {
    [Look(i), Look(j), Create(i, false), Create(j, false), CallGateway(i, None), CallGateway(j, None)]
  }

  function Run6(s: State, a: seq<Action>): State
    requires |a| == 6
  {
    Step(Step(Step(Step(Step(Step(s, a[0]), a[1]), a[2]), a[3]), a[4]), a[5])
  }

  lemma RunOfSix(s: State, a: seq<Action>)
    requires |a| == 6
    ensures Run(s, a) == Run6(s, a)
  {
    var s1 := Step(s, a[0]);
    var s2 := Step(s1, a[1]);
    var s3 := Step(s2, a[2]);
    var s4 := Step(s3, a[3]);
    var s5 := Step(s4, a[4]);
    assert Run(s, a) == Run(s1, a[1..]) && a[1..][1..] == a[2..];
    assert Run(s1, a[1..]) == Run(s2, a[2..]) && a[2..][1..] == a[3..];
    assert Run(s2, a[2..]) == Run(s3, a[3..]) && a[3..][1..] == a[4..];
    assert Run(s3, a[3..]) == Run(s4, a[4..]) && a[4..][1..] == a[5..];
    assert Run(s4, a[4..]) == Run(s5, a[5..]) && a[5..][1..] == [];
    assert Run(s5, a[5..]) == Run(Step(s5, a[5]), []);
  }

  lemma RaceSendsTwice(store: map<string, Record>, intents: seq<Intent>, i: nat, j: nat)
    requires i < j < |intents| && ShareNewKey(store, intents, i, j)
    ensures !NoKeyTwice(Run(Start(store, intents), Race(i, j)))
  {
    var s := Start(store, intents);
    RunOfSix(s, Race(i, j));
    RaceLooks(store, intents, i, j);
    var t := Run6(s, Race(i, j));
    assert !KeysDiffer(t, 0, 1);
  }

  lemma RaceLooks(store: map<string, Record>, intents: seq<Intent>, i: nat, j: nat)
    requires i < j < |intents| && ShareNewKey(store, intents, i, j)
    ensures var t := Run6(Start(store, intents), Race(i, j));
            |t.sent| == 2 && t.sent[0].key == t.sent[1].key
  {
  }

  /**
   With the reservation in two statements: no interleaving sends a key twice exactly when intents of equal keys
   find theirs in the store from the start.
   */
  lemma SendsOnceExactly(store: map<string, Record>, intents: seq<Intent>)
    ensures (forall actions: seq<Action> :: NoKeyTwice(Run(Start(store, intents), actions)))
            <==> NewKeysDiffer(store, intents)
  {
    if NewKeysDiffer(store, intents) {
      forall actions: seq<Action>
        ensures NoKeyTwice(Run(Start(store, intents), actions))
      {
        StartInvariant(store, intents);
        RunsAreFresh(store, intents, Start(store, intents), actions);
        AtMostOnce(store, intents, actions);
      }
    } else {
      var i: nat, j: nat :| i < j < |intents| && ShareNewKey(store, intents, i, j);
      RaceSendsTwice(store, intents, i, j);
    }
  }

  // ---- One execution on its own ----

  /** The store, the calls made and the answer after an execution that nothing interrupts. */
  function Alone(store: map<string, Record>, x: Intent, reply: Option<Result>): map<string, Record> {
    if Key(x) in store then store
    else store[Key(x) := if reply.Some? then Saved(x, reply.value) else Reserved(x)]
  }

  lemma AloneIsARun(s: State, i: nat, reply: Option<Result>)
    requires i < |s.calls| && s.calls[i].phase == Waiting
    ensures var x := s.calls[i].intent;
            var t := Run(s, [Reserve(i, false), CallGateway(i, reply), Save(i, false)]);
            && t.store == Alone(s.store, x, reply)
            && t.sent == if Key(x) in s.store then s.sent else s.sent + [Sent(Key(x), Dispatch(x.kind), i)]
  {
    var s1 := Step(s, Reserve(i, false));
    var s2 := Step(s1, CallGateway(i, reply));
    var actions := [Reserve(i, false), CallGateway(i, reply), Save(i, false)];
    assert actions[1..] == [CallGateway(i, reply), Save(i, false)] && actions[1..][1..] == [Save(i, false)];
    assert Run(s, actions) == Run(s1, actions[1..]) == Run(s2, [Save(i, false)]) == Step(s2, Save(i, false));
  }

  datatype Execution = Executed(result: Result) | Duplicate | GatewayRaised

  class ExecutionOrchestrator {
    const keepsState: bool
    var store: map<string, Record>
    var sent: seq<(string, Operation)>

    constructor (keepsState: bool, store: map<string, Record>)
      ensures this.keepsState == keepsState && this.store == store && sent == []
    {
      this.keepsState, this.store, sent := keepsState, store, [];
    }

    method ReserveRecord(x: Intent) returns (created: bool)
      modifies this`store
      ensures created <==> !keepsState || Key(x) !in old(store)
      ensures store == if keepsState && created then old(store)[Key(x) := Reserved(x)] else old(store)
    {
      if !keepsState {
        return true;
      }
      created := Key(x) !in store;
      if created {
        store := store[Key(x) := Reserved(x)];
      }
    }

    method Call(x: Intent) returns (reply: Option<Result>)
      modifies this`sent
      ensures sent == old(sent) + [(Key(x), Dispatch(x.kind))]
    {
      sent := sent + [(Key(x), Dispatch(x.kind))];
      reply := *;
    }

    /** Orders and risk intents go the same way; without a store nothing is recognised as a duplicate. */
    method Execute(x: Intent) returns (e: Execution)
      modifies this
      ensures e.Duplicate? <==> keepsState && Key(x) in old(store)
      ensures e.Duplicate? ==> store == old(store) && sent == old(sent)
      ensures !e.Duplicate? ==> sent == old(sent) + [(Key(x), Dispatch(x.kind))]
      ensures keepsState ==> store == Alone(old(store), x, if e.Executed? then Some(e.result) else None)
      ensures !keepsState ==> store == old(store)
    {
      var created := ReserveRecord(x);
      if !created {
        return Duplicate;
      }
      var reply := Call(x);
      if reply.None? {
        return GatewayRaised;
      }
      if keepsState {
        store := store[Key(x) := Saved(x, reply.value)];
      }
      return Executed(reply.value);
    }
  }
}
