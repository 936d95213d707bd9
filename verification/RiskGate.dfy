/**
 * The risk gate: admission guards, the token ledger behind them, the failure breaker and the
 * code-hash guard. Every operation is first a function on the gate's state; the class performs the
 * same operation field by field.
 *
 * A slot's closure is a record the gate keeps: what it declared, and the outcome that settled it.
 */
module RiskGate {
  import opened Common

  type Key = string
  type Hash = string

  const MAX_SOURCE_CLOCK_SKEW_MS := 30_000

  datatype TokenAccount = TokenAccount(owner: string, token: string)

  /** `callerAccounts`: the funding mode keeps counting this outflow itself once the slot settles. */
  datatype Spend = Spend(account: TokenAccount, amount: nat, callerAccounts: bool)

  /** A timestamp off the wire: absent, not a safe integer, or milliseconds. */
  datatype WireStamp = Missing | Unusable | Ms(value: int)

  datatype Action = Action(expectedProfit: Option<int>, dataTimestamp: WireStamp, spend: seq<Spend>)

  datatype Outcome = Outcome(ok: bool, abandoned: bool, contended: bool, unresolved: bool, spent: bool,
                             spendUnknown: bool, txHash: Option<Hash>, minedAtBlock: Option<nat>)

  const ABANDONED := Outcome(false, true, false, false, false, false, None, None)

  datatype Entry = Entry(k: Key, amount: nat)
  datatype Hold = Hold(entries: seq<Entry>, minedAtBlock: Option<nat>)
  datatype Slot = Slot(spend: seq<Spend>, settled: Option<Outcome>)

  datatype Config = Config(maxConsecutiveFailures: nat, minProfit: Option<int>, maxDataStalenessMs: Option<nat>,
                           maxInFlight: Option<nat>, startHalted: bool)

  /** Whether the gate may trade, and why not. */
  datatype Safety = Safety(running: bool, haltReason: string, consecutiveFailures: nat,
                           codeHashHalt: bool, codeHashHaltSeq: nat, everVerified: bool)

  /** The token ledger. */
  datatype Ledger = Ledger(available: map<Key, int>, spentSinceRefresh: map<Key, int>, reserved: map<Key, int>,
                           snapshotBlock: map<Key, nat>, holds: map<Hash, Hold>)

  datatype Gate = Gate(safety: Safety, ledger: Ledger, inFlight: int, slots: seq<Slot>)

  const EMPTY_LEDGER := Ledger(map[], map[], map[], map[], map[])

  function Opened(cfg: Config): Gate {
    Gate(Safety(!cfg.startHalted, if cfg.startHalted then "started halted (kill-switch)" else "", 0, false, 0, false),
         EMPTY_LEDGER, 0, [])
  }

  function KeyOf(a: TokenAccount): Key {
    Lower(a.owner) + "|" + Lower(a.token)
  }

  // ---- Amounts on one key -----------------------------------------------------------------------

  function EntriesOn(entries: seq<Entry>, k: Key): nat {
    if entries == [] then 0
    else
      EntriesOn(entries[..|entries| - 1], k)
      + if entries[|entries| - 1].k == k then entries[|entries| - 1].amount else 0
  }

  function SpendOn(spend: seq<Spend>, k: Key): nat {
    if spend == [] then 0
    else
      SpendOn(spend[..|spend| - 1], k)
      + if KeyOf(spend[|spend| - 1].account) == k then spend[|spend| - 1].amount else 0
  }

  /** The part of a declared spend the gate itself counts after settlement. */
  function GateSpend(spend: seq<Spend>): (entries: seq<Entry>) {
    if spend == [] then []
    else
      var last := spend[|spend| - 1];
      GateSpend(spend[..|spend| - 1]) + if last.callerAccounts then [] else [Entry(KeyOf(last.account), last.amount)]
  }

  function HoldOn(holds: map<Hash, Hold>, k: Key): Hash -> int {
    h => if h in holds then EntriesOn(holds[h].entries, k) else 0
  }

  ghost function HeldFor(holds: map<Hash, Hold>, k: Key): int {
    Sum(holds.Keys, HoldOn(holds, k))
  }

  ghost function Capacity(l: Ledger, k: Key): int {
    At(l.available, k) - HeldFor(l.holds, k) - At(l.spentSinceRefresh, k) - At(l.reserved, k)
  }

  // ---- Admission --------------------------------------------------------------------------------

  datatype Block = GateHalted | ExposureCap | UnknownBalance | Insufficient | BelowProfit
                 | MissingStamp | UnusableStamp | StaleData | FutureStamp

  /** The first declared spend that cannot be afforded, each judged on its own. */
  ghost function SpendBlock(l: Ledger, spend: seq<Spend>): Option<Block> {
    if spend == [] then None
    else
      var earlier := SpendBlock(l, spend[..|spend| - 1]);
      var last := spend[|spend| - 1];
      if earlier.Some? then earlier
      else if KeyOf(last.account) !in l.available then Some(UnknownBalance)
      else if last.amount > Capacity(l, KeyOf(last.account)) then Some(Insufficient)
      else None
  }

  function StampBlock(cfg: Config, now: int, stamp: WireStamp): Option<Block> {
    if cfg.maxDataStalenessMs.None? then None
    else match stamp
      case Missing => Some(MissingStamp)
      case Unusable => Some(UnusableStamp)
      case Ms(at) =>
        if now - at > cfg.maxDataStalenessMs.value then Some(StaleData)
        else if at - now > MAX_SOURCE_CLOCK_SKEW_MS then Some(FutureStamp)
        else None
  }

  ghost function Evaluate(g: Gate, cfg: Config, now: int, action: Action): Option<Block> {
    if !g.safety.running then Some(GateHalted)
    else if cfg.maxInFlight.Some? && g.inFlight >= cfg.maxInFlight.value then Some(ExposureCap)
    else if SpendBlock(g.ledger, action.spend).Some? then SpendBlock(g.ledger, action.spend)
    else if cfg.minProfit.Some? && action.expectedProfit.Some? && action.expectedProfit.value < cfg.minProfit.value
    then Some(BelowProfit)
    else StampBlock(cfg, now, action.dataTimestamp)
  }

  function Reserve(m: map<Key, int>, spend: seq<Spend>): map<Key, int> {
    if spend == [] then m
    else
      var before := Reserve(m, spend[..|spend| - 1]);
      var k := KeyOf(spend[|spend| - 1].account);
      before[k := At(before, k) + spend[|spend| - 1].amount]
  }

  function Unreserve(m: map<Key, int>, spend: seq<Spend>): map<Key, int> {
    if spend == [] then m
    else
      var before := Unreserve(m, spend[..|spend| - 1]);
      var k := KeyOf(spend[|spend| - 1].account);
      before[k := At(before, k) - spend[|spend| - 1].amount]
  }

  function Charge(m: map<Key, int>, entries: seq<Entry>): map<Key, int> {
    if entries == [] then m
    else
      var before := Charge(m, entries[..|entries| - 1]);
      var k := entries[|entries| - 1].k;
      before[k := At(before, k) + entries[|entries| - 1].amount]
  }

  /** The slot an allowed action would be given. */
  function NextSlot(g: Gate): nat { |g.slots| }

  function Admit(g: Gate, spend: seq<Spend>): Gate {
    g.(inFlight := g.inFlight + 1, ledger := g.ledger.(reserved := Reserve(g.ledger.reserved, spend)),
       slots := g.slots + [Slot(spend, None)])
  }

  ghost function OpenSlot(g: Gate, cfg: Config, now: int, action: Action): Gate {
    if Evaluate(g, cfg, now, action).Some? then g else Admit(g, action.spend)
  }

  // ---- Settlement -------------------------------------------------------------------------------

  predicate CountsAsSpent(o: Outcome) {
    o.ok || o.unresolved || o.spent || o.spendUnknown
  }

  /** Outcomes that are no evidence the chain is rejecting us. */
  predicate BreakerExempt(o: Outcome) {
    o.abandoned || o.contended || o.unresolved
  }

  function PlaceHold(holds: map<Hash, Hold>, h: Hash, entries: seq<Entry>, mined: Option<nat>): map<Hash, Hold> {
    if entries == [] then holds
    else if h !in holds then holds[h := Hold(entries, mined)]
    else if holds[h].minedAtBlock.None? && mined.Some? then holds[h := holds[h].(minedAtBlock := mined)]
    else holds
  }

  function HaltWith(s: Safety, reason: string, fromCodeHash: bool): Safety {
    s.(running := false, haltReason := reason,
       codeHashHalt := s.codeHashHalt || fromCodeHash,
       codeHashHaltSeq := s.codeHashHaltSeq + if fromCodeHash then 1 else 0)
  }

  const BREAKER_REASON := "consecutive failures"

  /** What one settled outcome does to the breaker. */
  function Release(s: Safety, cfg: Config, o: Outcome): Safety {
    if BreakerExempt(o) then s
    else if o.ok then s.(consecutiveFailures := 0)
    else
      var s1 := s.(consecutiveFailures := s.consecutiveFailures + 1);
      if cfg.maxConsecutiveFailures > 0 && s1.consecutiveFailures >= cfg.maxConsecutiveFailures
      then HaltWith(s1, BREAKER_REASON, false) else s1
  }

  /** Where a settled slot's declared spend goes. */
  function Book(l: Ledger, spend: seq<Spend>, o: Outcome): Ledger {
    var l1 := l.(reserved := Unreserve(l.reserved, spend));
    if !CountsAsSpent(o) then l1
    else if o.txHash.Some? then l1.(holds := PlaceHold(l.holds, o.txHash.value, GateSpend(spend), o.minedAtBlock))
    else l1.(spentSinceRefresh := Charge(l.spentSinceRefresh, GateSpend(spend)))
  }

  predicate IsOpen(g: Gate, i: nat) {
    i < |g.slots| && g.slots[i].settled.None?
  }

  /** The first outcome reported for a slot settles it; any later one changes nothing. */
  function Settle(g: Gate, cfg: Config, i: nat, o: Outcome): Gate {
    if !IsOpen(g, i) then g
    else Gate(Release(g.safety, cfg, o), Book(g.ledger, g.slots[i].spend, o), g.inFlight - 1,
              g.slots[i := g.slots[i].(settled := Some(o))])
  }

  // ---- Balances ---------------------------------------------------------------------------------

  function SetAvailable(l: Ledger, k: Key, amount: int, block: Option<nat>): Ledger {
    if block.Some? && k in l.snapshotBlock && block.value < l.snapshotBlock[k] then l
    else
      l.(snapshotBlock := if block.Some? then l.snapshotBlock[k := block.value] else l.snapshotBlock,
         available := l.available[k := amount],
         spentSinceRefresh := l.spentSinceRefresh[k := 0])
  }

  datatype Balance = Balance(account: TokenAccount, amount: int)

  function Refreshed(balances: seq<Balance>): set<Key> {
    set i | 0 <= i < |balances| :: KeyOf(balances[i].account)
  }

  function Without(entries: seq<Entry>, keys: set<Key>): seq<Entry> {
    if entries == [] then []
    else
      Without(entries[..|entries| - 1], keys)
      + if entries[|entries| - 1].k in keys then [] else [entries[|entries| - 1]]
  }

  function Retire(holds: map<Hash, Hold>, h: Hash, keys: set<Key>): map<Hash, Hold> {
    if h !in holds then holds
    else
      var rest := Without(holds[h].entries, keys);
      if rest == [] then holds - {h} else holds[h := holds[h].(entries := rest)]
  }

  function RetireAll(holds: map<Hash, Hold>, settled: seq<Hash>, keys: set<Key>): map<Hash, Hold> {
    if settled == [] then holds
    else Retire(RetireAll(holds, settled[..|settled| - 1], keys), settled[|settled| - 1], keys)
  }

  function Publish(l: Ledger, balances: seq<Balance>, block: nat): Ledger {
    if balances == [] then l
    else
      var b := balances[|balances| - 1];
      SetAvailable(Publish(l, balances[..|balances| - 1], block), KeyOf(b.account), b.amount, Some(block))
  }

  function ApplySnapshot(l: Ledger, balances: seq<Balance>, block: nat, settled: seq<Hash>): Ledger {
    Publish(l.(holds := RetireAll(l.holds, settled, Refreshed(balances))), balances, block)
  }

  // ---- Kill switch, breaker, code hash -----------------------------------------------------------

  function Resume(s: Safety): Safety {
    if s.codeHashHalt then s else s.(running := true, haltReason := "", consecutiveFailures := 0)
  }

  /** What one pinned address answered: its code hash, no code at all, or a failed probe. */
  datatype CodeRead = CodeAt(hash: string) | NoCode | ProbeRejected

  datatype Pin = Pin(address: string, want: string)

  predicate Compromised(pin: Pin, read: CodeRead) {
    read.NoCode? || (read.CodeAt? && Lower(read.hash) != Lower(pin.want))
  }

  predicate AnyCompromised(pins: seq<Pin>, answers: seq<CodeRead>)
    requires |pins| == |answers|
  {
    exists i :: 0 <= i < |pins| && Compromised(pins[i], answers[i])
  }

  predicate AnyRejected(answers: seq<CodeRead>) {
    exists i :: 0 <= i < |answers| && answers[i].ProbeRejected?
  }

  const CODE_REASON := "pinned contract bytecode is wrong"
  const UNVERIFIED_REASON := "pinned contract bytecode has never been verified (probe failed)"

  /** The judgement of a finished verification pass that started when `startSeq` halts had been counted. */
  function FinishVerify(s: Safety, pins: seq<Pin>, answers: seq<CodeRead>, startSeq: nat): Safety
    requires |pins| == |answers|
  {
    if AnyCompromised(pins, answers) then HaltWith(s, CODE_REASON, true)
    else if AnyRejected(answers) then (if s.everVerified then s else HaltWith(s, UNVERIFIED_REASON, true))
    else s.(codeHashHalt := s.codeHashHalt && s.codeHashHaltSeq != startSeq, everVerified := true)
  }

  // ---- The gate itself ----------------------------------------------------------------------------

  class RiskGate {
    const config: Config
    var running: bool
    var haltReason: string
    var consecutiveFailures: nat
    var codeHashHalt: bool
    var codeHashHaltSeq: nat
    var everVerified: bool
    var inFlight: int
    var slots: seq<Slot>
    var available: map<Key, int>
    var spentSinceRefresh: map<Key, int>
    var reserved: map<Key, int>
    var snapshotBlock: map<Key, nat>
    var holds: map<Hash, Hold>

    function State(): Safety
      reads this
    {
      Safety(running, haltReason, consecutiveFailures, codeHashHalt, codeHashHaltSeq, everVerified)
    }

    function Tokens(): Ledger
      reads this
    {
      Ledger(available, spentSinceRefresh, reserved, snapshotBlock, holds)
    }

    function View(): Gate
      reads this
    {
      Gate(State(), Tokens(), inFlight, slots)
    }

    constructor (config: Config)
      ensures this.config == config && View() == Opened(config)
    {
      this.config := config;
      running, haltReason := !config.startHalted, if config.startHalted then "started halted (kill-switch)" else "";
      consecutiveFailures, codeHashHalt, codeHashHaltSeq, everVerified := 0, false, 0, false;
      inFlight, slots := 0, [];
      available, spentSinceRefresh, reserved, snapshotBlock, holds := map[], map[], map[], map[], map[];
    }

    /** Sum what every hold still owes on `k`. */
    method Held(k: Key) returns (sum: int)
      ensures sum == HeldFor(holds, k)
    {
      sum := 0;
      var todo := holds.Keys;
      while todo != {}
        invariant todo <= holds.Keys
        invariant sum + Sum(todo, HoldOn(holds, k)) == HeldFor(holds, k)
        decreases |todo|
      {
        var h :| h in todo;
        SumTake(todo, HoldOn(holds, k), h);
        var entries := holds[h].entries;
        for j := 0 to |entries|
          invariant sum + EntriesOn(entries, k) - EntriesOn(entries[..j], k) + Sum(todo - {h}, HoldOn(holds, k))
                    == HeldFor(holds, k)
        {
          assert entries[..j + 1][..j] == entries[..j];
          if entries[j].k == k {
            sum := sum + entries[j].amount;
          }
        }
        assert entries[..|entries|] == entries;
        todo := todo - {h};
      }
    }

    method Spendable(k: Key) returns (c: int)
      ensures c == Capacity(Tokens(), k)
    {
      var held := Held(k);
      c := At(available, k) - held - At(spentSinceRefresh, k) - At(reserved, k);
    }

    /** The guards, in order. Reserves nothing. */
    method Judge(action: Action, now: int) returns (blocked: Option<Block>)
      ensures blocked == Evaluate(View(), config, now, action)
    {
      if !running {
        return Some(GateHalted);
      }
      if config.maxInFlight.Some? && inFlight >= config.maxInFlight.value {
        return Some(ExposureCap);
      }
      blocked := JudgeSpend(action.spend);
      if blocked.Some? {
        return;
      }
      if config.minProfit.Some? && action.expectedProfit.Some? && action.expectedProfit.value < config.minProfit.value {
        return Some(BelowProfit);
      }
      return StampBlock(config, now, action.dataTimestamp);
    }

    method JudgeSpend(spend: seq<Spend>) returns (blocked: Option<Block>)
      ensures blocked == SpendBlock(Tokens(), spend)
    {
      for i := 0 to |spend|
        invariant SpendBlock(Tokens(), spend[..i]) == None
      {
        assert spend[..i + 1][..i] == spend[..i];
        var k := KeyOf(spend[i].account);
        if k !in available {
          BlockSticks(Tokens(), spend, i + 1);
          return Some(UnknownBalance);
        }
        var c := Spendable(k);
        if spend[i].amount > c {
          BlockSticks(Tokens(), spend, i + 1);
          return Some(Insufficient);
        }
      }
      assert spend[..|spend|] == spend;
      return None;
    }

    /** Ask the gate; an allowed answer reserves the slot and every declared spend at once. */
    method Open(action: Action, now: int) returns (slot: Option<nat>, blocked: Option<Block>)
      modifies this
      ensures blocked == Evaluate(old(View()), config, now, action)
      ensures View() == OpenSlot(old(View()), config, now, action)
      ensures slot == if blocked.None? then Some(NextSlot(old(View()))) else None
    {
      blocked := Judge(action, now);
      if blocked.Some? {
        return None, blocked;
      }
      inFlight := inFlight + 1;
      ReserveEach(action.spend);
      slot := Some(|slots|);
      slots := slots + [Slot(action.spend, None)];
    }

    method ReserveEach(spend: seq<Spend>)
      modifies this`reserved
      ensures reserved == Reserve(old(reserved), spend)
    {
      for i := 0 to |spend|
        invariant reserved == Reserve(old(reserved), spend[..i])
      {
        assert spend[..i + 1][..i] == spend[..i];
        var k := KeyOf(spend[i].account);
        reserved := reserved[k := At(reserved, k) + spend[i].amount];
      }
      assert spend[..|spend|] == spend;
    }

    /** Report an outcome; only the first one for a slot has any effect. */
    method SettleSlot(i: nat, o: Outcome)
      modifies this
      ensures View() == Settle(old(View()), config, i, o)
    {
      if i >= |slots| || slots[i].settled.Some? {
        return;
      }
      var spend := slots[i].spend;
      slots := slots[i := slots[i].(settled := Some(o))];
      BookSpend(spend, o);
      ReleaseSlot(o);
    }

    method BookSpend(spend: seq<Spend>, o: Outcome)
      modifies this`reserved, this`spentSinceRefresh, this`holds
      ensures Tokens() == Book(old(Tokens()), spend, o)
    {
      var spent := CountsAsSpent(o);
      var entries: seq<Entry> := [];
      for j := 0 to |spend|
        invariant reserved == Unreserve(old(reserved), spend[..j])
        invariant entries == if spent then GateSpend(spend[..j]) else []
        invariant holds == old(holds) && spentSinceRefresh == old(spentSinceRefresh)
      {
        var entry := Entry(KeyOf(spend[j].account), spend[j].amount);
        SpendStep(old(reserved), spend, j);
        reserved := reserved[entry.k := At(reserved, entry.k) - entry.amount];
        if spent && !spend[j].callerAccounts {
          entries := entries + [entry];
        }
      }
      assert spend[..|spend|] == spend;
      if spent {
        if o.txHash.Some? {
          HoldBy(o.txHash.value, entries, o.minedAtBlock);
        } else {
          ChargeEach(entries);
        }
      }
    }

    /** An outflow with no transaction to hold it by is counted until the next refresh of its key. */
    method ChargeEach(entries: seq<Entry>)
      modifies this`spentSinceRefresh
      ensures spentSinceRefresh == Charge(old(spentSinceRefresh), entries)
    {
      for j := 0 to |entries|
        invariant spentSinceRefresh == Charge(old(spentSinceRefresh), entries[..j])
      {
        assert entries[..j + 1][..j] == entries[..j];
        var e := entries[j];
        spentSinceRefresh := spentSinceRefresh[e.k := At(spentSinceRefresh, e.k) + e.amount];
      }
      assert entries[..|entries|] == entries;
    }

    /** One transaction, one hold: a repeated settle for the same hash never stacks its spend. */
    method HoldBy(h: Hash, entries: seq<Entry>, mined: Option<nat>)
      modifies this`holds
      ensures holds == PlaceHold(old(holds), h, entries, mined)
    {
      if |entries| > 0 {
        if h !in holds {
          holds := holds[h := Hold(entries, mined)];
        } else if holds[h].minedAtBlock.None? && mined.Some? {
          holds := holds[h := holds[h].(minedAtBlock := mined)];
        }
      }
    }

    method ReleaseSlot(o: Outcome)
      modifies this`inFlight, this`consecutiveFailures, this`running, this`haltReason
      modifies this`codeHashHalt, this`codeHashHaltSeq
      ensures State() == Release(old(State()), config, o) && inFlight == old(inFlight) - 1
    {
      inFlight := inFlight - 1;
      if o.abandoned || o.contended || o.unresolved {
        return;
      }
      if o.ok {
        consecutiveFailures := 0;
        return;
      }
      consecutiveFailures := consecutiveFailures + 1;
      if config.maxConsecutiveFailures > 0 && consecutiveFailures >= config.maxConsecutiveFailures {
        HaltFor(BREAKER_REASON, false);
      }
    }

    method HaltFor(reason: string, fromCodeHash: bool)
      modifies this`running, this`haltReason, this`codeHashHalt, this`codeHashHaltSeq
      ensures State() == HaltWith(old(State()), reason, fromCodeHash)
    {
      running := false;
      haltReason := reason;
      if fromCodeHash {
        codeHashHalt := true;
        codeHashHaltSeq := codeHashHaltSeq + 1;
      }
    }

    method TryResume() returns (accepted: bool)
      modifies this`running, this`haltReason, this`consecutiveFailures
      ensures accepted == !old(codeHashHalt)
      ensures State() == Resume(old(State()))
    {
      if codeHashHalt {
        return false;
      }
      running, haltReason, consecutiveFailures := true, "", 0;
      return true;
    }

    method Refresh(account: TokenAccount, amount: int, block: Option<nat>)
      modifies this`available, this`spentSinceRefresh, this`snapshotBlock
      ensures Tokens() == SetAvailable(old(Tokens()), KeyOf(account), amount, block)
    {
      var k := KeyOf(account);
      if block.Some? {
        if k in snapshotBlock && block.value < snapshotBlock[k] {
          return;
        }
        snapshotBlock := snapshotBlock[k := block.value];
      }
      available := available[k := amount];
      spentSinceRefresh := spentSinceRefresh[k := 0];
    }

    /** Retire what this read accounts for, then publish it, in one step. */
    method Snapshot(balances: seq<Balance>, block: nat, settled: seq<Hash>)
      modifies this`available, this`spentSinceRefresh, this`snapshotBlock, this`holds
      ensures Tokens() == ApplySnapshot(old(Tokens()), balances, block, settled)
    {
      var refreshed := set i | 0 <= i < |balances| :: KeyOf(balances[i].account);
      for i := 0 to |settled|
        invariant Tokens() == old(Tokens()).(holds := RetireAll(old(holds), settled[..i], refreshed))
      {
        assert settled[..i + 1][..i] == settled[..i];
        var h := settled[i];
        if h in holds {
          var rest := Without(holds[h].entries, refreshed);
          if |rest| == 0 {
            holds := holds - {h};
          } else {
            holds := holds[h := holds[h].(entries := rest)];
          }
        }
      }
      assert settled[..|settled|] == settled;
      ghost var mid := Tokens();
      for i := 0 to |balances|
        invariant Tokens() == Publish(mid, balances[..i], block)
      {
        assert balances[..i + 1][..i] == balances[..i];
        Refresh(balances[i].account, balances[i].amount, Some(block));
      }
      assert balances[..|balances|] == balances;
    }

    /** Judge a verification pass whose reads have all come back; without configured hashes there is none. */
    method Verified(expected: Option<seq<Pin>>, answers: seq<CodeRead>, startSeq: nat) returns (probeFailed: bool)
      requires expected.Some? ==> |expected.value| == |answers|
      modifies this`running, this`haltReason, this`codeHashHalt, this`codeHashHaltSeq, this`everVerified
      ensures State() ==
                if expected.Some? then FinishVerify(old(State()), expected.value, answers, startSeq) else old(State())
      ensures probeFailed <==> expected.Some? && AnyRejected(answers) && !AnyCompromised(expected.value, answers)
    {
      if expected.None? {
        return false;
      }
      var pins := expected.value;
      for i := 0 to |pins|
        invariant State() == old(State())
        invariant forall j :: 0 <= j < i ==> !Compromised(pins[j], answers[j])
      {
        if answers[i].ProbeRejected? { continue; }
        if answers[i].NoCode? || Lower(answers[i].hash) != Lower(pins[i].want) {
          assert Compromised(pins[i], answers[i]);
          HaltFor(CODE_REASON, true);
          return false;
        }
      }
      probeFailed := exists i :: 0 <= i < |answers| && answers[i].ProbeRejected?;
      if probeFailed {
        if !everVerified {
          HaltFor(UNVERIFIED_REASON, true);
        }
        return;
      }
      if codeHashHaltSeq == startSeq {
        codeHashHalt := false;
      }
      everVerified := true;
    }

    /** The `finally` backstop: every slot in the list that nothing settled is released as abandoned. */
    method SettleUnfinished(list: seq<nat>)
      modifies this
      ensures View() == SettleAll(old(View()), config, list)
    {
      for i := 0 to |list|
        invariant View() == SettleAll(old(View()), config, list[..i])
      {
        assert list[..i + 1][..i] == list[..i];
        SettleSlot(list[i], ABANDONED);
      }
      assert list[..|list|] == list;
    }
  }

  function SettleAll(g: Gate, cfg: Config, list: seq<nat>): Gate {
    if list == [] then g else Settle(SettleAll(g, cfg, list[..|list| - 1]), cfg, list[|list| - 1], ABANDONED)
  }

  lemma {:induction false} BlockSticks(l: Ledger, spend: seq<Spend>, n: nat)
    requires n <= |spend| && SpendBlock(l, spend[..n]).Some?
    ensures SpendBlock(l, spend) == SpendBlock(l, spend[..n])
    decreases |spend| - n
  {
    if n == |spend| {
      assert spend[..n] == spend;
    } else {
      assert spend[..n + 1][..n] == spend[..n];
      BlockSticks(l, spend, n + 1);
    }
  }

  /** One more declared spend, as `Unreserve` and `GateSpend` see it. */
  lemma SpendStep(m: map<Key, int>, spend: seq<Spend>, j: nat)
    requires j < |spend|
    ensures var k := KeyOf(spend[j].account);
            && Unreserve(m, spend[..j + 1])
               == Unreserve(m, spend[..j])[k := At(Unreserve(m, spend[..j]), k) - spend[j].amount]
            && GateSpend(spend[..j + 1])
               == if spend[j].callerAccounts then GateSpend(spend[..j])
                  else GateSpend(spend[..j]) + [Entry(k, spend[j].amount)]
  {
    assert spend[..j + 1][..j] == spend[..j];
  }
}
