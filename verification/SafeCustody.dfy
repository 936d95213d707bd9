/**
 * Safe custody of MANUAL proposals: operator commands, one at a time, against a store the bot keeps
 * writing and a Safe that executes whatever its owners signed. Every chain or store access of a command
 * is a step of its own, and anything may happen in between.
 *
 * Assumed of the Safe: a SafeTx executes only at the Safe's current nonce, which only goes up.
 */
module SafeCustody {
  import opened Common
  import opened Persistence

  const ZERO_ADDRESS := "0x0000000000000000000000000000000000000000"

  datatype Context = Context(safe: string, chainId: nat)

  // ---- Envelope rules -----------------------------------------------------------------------------

  predicate ZeroGas(p: SafeTxParams) {
    && p.operation == 0 && p.safeTxGas == 0 && p.baseGas == 0 && p.gasPrice == 0
    && Lower(p.gasToken) == ZERO_ADDRESS && Lower(p.refundReceiver) == ZERO_ADDRESS
  }

  function ComputeHash(ctx: Context, p: ProposedTx, params: SafeTxParams): SafeTxHash {
    SafeTxHash(ctx.chainId, Lower(ctx.safe), Lower(p.to), p.value, p.data, params)
  }

  function BuildEnvelope(ctx: Context, p: ProposedTx, safeNonce: nat, claimBlock: nat): SafeEnvelope {
    var params := SafeTxParams(safeNonce, 0, 0, 0, 0, ZERO_ADDRESS, ZERO_ADDRESS);
    SafeEnvelope(params, ComputeHash(ctx, p, params), claimBlock)
  }

  /** Policy first, then the recomputed hash. */
  predicate Intact(ctx: Context, p: ProposedTx, e: SafeEnvelope) {
    ZeroGas(e.params) && ComputeHash(ctx, p, e.params) == e.safeTxHash
  }

  /** The owners' signatures commit to the whole call: chain, Safe, target, value, data and every parameter. */
  lemma SafeHashCommits(c: Context, p: ProposedTx, s: SafeTxParams, d: Context, q: ProposedTx, t: SafeTxParams)
    ensures ComputeHash(c, p, s) == ComputeHash(d, q, t) <==>
              && c.chainId == d.chainId && Lower(c.safe) == Lower(d.safe)
              && Lower(p.to) == Lower(q.to) && p.value == q.value && p.data == q.data && s == t
  {
  }

  /** Nobody is refunded, and nothing but a plain call is made. */
  predicate RefundsNobody(s: SafeTxParams) {
    && s.operation == 0 && s.safeTxGas + s.baseGas + s.gasPrice == 0
    && Lower(s.gasToken) == Lower(s.refundReceiver) == ZERO_ADDRESS
  }

  /** An intact envelope is a plain call that refunds nobody, and its hash is that of this very payload. */
  lemma IntactMeans(ctx: Context, p: ProposedTx, e: SafeEnvelope)
    ensures Intact(ctx, p, e) <==> e.safeTxHash == ComputeHash(ctx, p, e.params) && RefundsNobody(e.params)
  {
  }

  predicate Verified(ctx: Context, row: TxIntent) {
    && row.payload.Some? && row.payloadHash == Some(HashPayload(row.payload.value))
    && row.payload.value.chainId == ctx.chainId
  }

  datatype Verdict = Live | Dead | AlreadyExecuted | AheadOfChain | Tampered

  /** What became of an envelope an earlier claim reserved, given the Safe's nonce and the log scan. */
  function ClassifyRetained(ctx: Context, p: ProposedTx, e: SafeEnvelope, live: nat, executed: bool): Verdict {
    if !Intact(ctx, p, e) then Tampered
    else if live < e.params.safeNonce then AheadOfChain
    else if live == e.params.safeNonce then Live
    else if executed then AlreadyExecuted
    else Dead
  }

  /** Another row that `proposals` lists carries an envelope. */
  predicate OtherProposal(rows: Rows, id: Id) {
    exists x :: x in rows && x != id && rows[x].safeEnvelope.Some?
             && rows[x].status in AWAITING_OPERATOR && rows[x].payloadHash.Some?
  }

  /** Another row on the work list carries an envelope. */
  predicate OtherInFlight(rows: Rows, id: Id) {
    exists x :: x in rows && x != id && rows[x].safeEnvelope.Some? && IsInFlight(rows[x])
  }

  // ---- Runs ---------------------------------------------------------------------------------------

  datatype Kind = Claiming | Broadcasting | Confirming | Releasing | Failing

  /** How far a command has come; `row` is what it loaded at its start. */
  datatype Stage =
    | Loaded | HalfScreened | Screened | SawNonce(nonce: nat) | Clear | Ready(envelope: SafeEnvelope) | Leased

  datatype Command = Idle | Command(kind: Kind, id: Id, row: TxIntent, stage: Stage)

  /** `issued` records, for the current attempt at each row, every SafeTx a claim has fixed for it. */
  datatype World = World(rows: Rows, time: nat, chain: SafeState, issued: Issued, command: Command)

  /** The Safe on chain. */
  datatype SafeState = SafeState(safeNonce: nat, executed: set<SafeTxHash>)

  type Issued = map<Id, set<SafeTxHash>>

  datatype Event =
    | Bot(op: StoreOp)
    | Execute(safeTxHash: SafeTxHash)
    | Begin(kind: Kind, id: Id)
    | ScreenProposals
    | ScreenInFlight
    | ReadNonce
    | Classify
    | NoEnvelope
    | ScanForRelease
    | Build(claimBlock: nat)
    | Claim
    | MarkBroadcast(hash: TxHash)
    | Release
    | Fail(error: Option<string>)
    | Abort

  predicate Claims(k: Kind) { k.Claiming? || k.Broadcasting? }

  /** What the bot does to the store: propose, record, supersede, expire, and resolve in-flight rows. */
  predicate BotOp(rows: Rows, op: StoreOp) {
    match op
    case ProposeOp(_, payload, hash) => hash == HashPayload(payload)
    case RecordIntentOp(_) => true
    case SupersedeOp(_) => true
    case ExpireOp(_, _) => true
    case TransitionOp(id, to, _, _) =>
      (id in rows ==> IsInFlight(rows[id])) && to in {Pending, Submitted, Confirmed, Failed}
    case _ => false
  }

  predicate At(w: World, stage: Stage) {
    w.command.Command? && w.command.stage == stage
  }

  /** The command is where an envelope it may have loaded has to be judged. */
  predicate Judging(c: Command) {
    c.Command? && ((Claims(c.kind) && c.stage.Screened?) || (c.kind.Failing? && c.stage.Loaded?))
  }

  /** A claim reuses a live envelope and replaces a dead one; `fail` goes on only past a dead one. */
  predicate Proceeds(k: Kind, v: Verdict) {
    v.Dead? || (v.Live? && Claims(k))
  }

  predicate Enabled(w: World, ctx: Context, e: Event) {
    var c := w.command;
    match e
    case Bot(op) => BotOp(w.rows, op)
    case Execute(h) => h.params.safeNonce == w.chain.safeNonce
    case Begin(kind, id) =>
      && c.Idle? && id in w.rows && Verified(ctx, w.rows[id])
      && (kind.Broadcasting? ==> w.rows[id].status == Proposed)
      && (kind.Confirming? || kind.Releasing? ==> w.rows[id].status == Claimed)
    case ScreenProposals => At(w, Loaded) && Claims(c.kind) && !OtherProposal(w.rows, c.id)
    case ScreenInFlight => At(w, HalfScreened) && !OtherInFlight(w.rows, c.id)
    case ReadNonce => Judging(c) && c.row.safeEnvelope.Some?
    case Classify =>
      && c.Command? && c.stage.SawNonce? && c.row.safeEnvelope.Some? && c.row.payload.Some?
      && Proceeds(c.kind, ClassifyRetained(ctx, c.row.payload.value, c.row.safeEnvelope.value, c.stage.nonce,
                                           c.row.safeEnvelope.value.safeTxHash in w.chain.executed))
    case NoEnvelope => (Judging(c) || (At(w, Loaded) && c.kind.Releasing?)) && c.row.safeEnvelope.None?
    case ScanForRelease =>
      && At(w, Loaded) && c.kind.Releasing? && c.row.safeEnvelope.Some? && c.row.payload.Some?
      && Intact(ctx, c.row.payload.value, c.row.safeEnvelope.value)
      && c.row.safeEnvelope.value.safeTxHash !in w.chain.executed
    case Build(_) => At(w, Clear) && Claims(c.kind) && c.row.payload.Some?
    case Claim => c.Command? && c.stage.Ready? && c.row.payloadHash.Some?
    case MarkBroadcast(_) =>
      c.Command? && (c.stage.Leased? || (c.kind.Confirming? && c.stage.Loaded?)) && c.row.payloadHash.Some?
    case Release => At(w, Clear) && c.kind.Releasing? && c.row.payloadHash.Some?
    case Fail(_) => At(w, Clear) && c.kind.Failing?
    case Abort => c.Command?
  }

  function Executed(c: SafeState, h: SafeTxHash): SafeState {
    SafeState(c.safeNonce + 1, c.executed + {h})
  }

  function Store(w: World, op: StoreOp): World {
    w.(rows := After(w.rows, op, w.time), time := w.time + 1)
  }

  /** A new attempt at a row starts with nothing issued. */
  function DoBot(w: World, op: StoreOp): World {
    var starts := (op.RecordIntentOp? || op.ProposeOp?) && Revives(w.rows, op, IdempotencyKey(op.input));
    Store(w, op).(issued := if starts then w.issued[IdempotencyKey(op.input) := {}] else w.issued)
  }

  function DoClaim(w: World, e: SafeEnvelope): World
    requires w.command.Command? && w.command.row.payloadHash.Some?
  {
    var c := w.command;
    var won := ClaimOutcome(w.rows, c.id, c.row.payloadHash.value, Some(e), w.time).ClaimWon?;
    Store(w, ClaimOp(c.id, c.row.payloadHash.value, Some(e))).(
      issued := if won then w.issued[c.id := IssuedFor(w.issued, c.id) + {e.safeTxHash}] else w.issued,
      command := if won && c.kind.Broadcasting? then c.(stage := Leased) else Idle)
  }

  function IssuedFor(issued: Issued, id: Id): set<SafeTxHash> {
    if id in issued then issued[id] else {}
  }

  function DoClassify(w: World): World
    requires w.command.Command? && w.command.stage.SawNonce? && w.command.row.safeEnvelope.Some?
  {
    var c := w.command;
    var e := c.row.safeEnvelope.value;
    w.(command := c.(stage := if c.stage.nonce == e.params.safeNonce then Ready(e) else Clear))
  }

  function Apply(w: World, ctx: Context, e: Event): World
    requires Enabled(w, ctx, e)
  {
    var c := w.command;
    match e
    case Bot(op) => DoBot(w, op)
    case Execute(h) => w.(chain := Executed(w.chain, h))
    case Begin(kind, id) => w.(command := Command(kind, id, w.rows[id], Loaded))
    case ScreenProposals => w.(command := c.(stage := HalfScreened))
    case ScreenInFlight => w.(command := c.(stage := Screened))
    case ReadNonce => w.(command := c.(stage := SawNonce(w.chain.safeNonce)))
    case Classify => DoClassify(w)
    case NoEnvelope => w.(command := c.(stage := Clear))
    case ScanForRelease => w.(command := c.(stage := Clear))
    case Build(block) =>
      w.(command := c.(stage := Ready(BuildEnvelope(ctx, c.row.payload.value, w.chain.safeNonce, block))))
    case Claim => DoClaim(w, c.stage.envelope)
    case MarkBroadcast(hash) => Store(w, MarkBroadcastOp(c.id, hash, c.row.payloadHash.value)).(command := Idle)
    case Release => Store(w, ReleaseOp(c.id, c.row.payloadHash.value)).(command := Idle)
    case Fail(error) => Store(w, FailOp(c.id, error)).(command := Idle)
    case Abort => w.(command := Idle)
  }

  predicate Start(w: World) {
    w.rows == map[] && w.chain.executed == {} && w.command.Idle?
  }

  predicate Run(w: World, ctx: Context, run: seq<Event>)
    decreases |run|
  {
    run == [] || (Enabled(w, ctx, run[0]) && Run(Apply(w, ctx, run[0]), ctx, run[1..]))
  }

  function Final(w: World, ctx: Context, run: seq<Event>): World
    requires Run(w, ctx, run)
    decreases |run|
  {
    if run == [] then w else Final(Apply(w, ctx, run[0]), ctx, run[1..])
  }

  // ---- Invariant ------------------------------------------------------------------------------------

  /** The SafeTx never executed and, its nonce being spent, never will. */
  predicate NeverExecutes(c: SafeState, h: SafeTxHash) {
    h.params.safeNonce < c.safeNonce && h !in c.executed
  }

  predicate HasEnvelope(rows: Rows, id: Id) {
    id in rows && IsLive(rows[id]) && rows[id].safeEnvelope.Some?
  }

  /** Every envelope on record is the zero-gas SafeTx of its own row's payload. */
  predicate RowSound(ctx: Context, r: TxIntent) {
    && (r.payloadHash.Some? ==> r.payload.Some? && r.payloadHash.value == HashPayload(r.payload.value))
    && (r.safeEnvelope.Some? ==>
          r.payload.Some? && r.payloadHash.Some? && Intact(ctx, r.payload.value, r.safeEnvelope.value))
  }

  predicate RowsSound(w: World, ctx: Context) {
    forall id :: id in w.rows ==> RowSound(ctx, w.rows[id])
  }

  /** Of all SafeTxs issued for a live row, only the one its envelope carries can ever execute. */
  predicate IssuedRow(c: SafeState, issued: set<SafeTxHash>, e: Option<SafeEnvelope>) {
    && (e.Some? ==> e.value.safeTxHash in issued)
    && forall h :: h in issued ==> (e.Some? && h == e.value.safeTxHash) || NeverExecutes(c, h)
  }

  predicate IssuedAt(w: World, id: Id)
    requires id in w.rows
  {
    IssuedRow(w.chain, IssuedFor(w.issued, id), w.rows[id].safeEnvelope)
  }

  predicate IssuedSound(w: World) {
    && (forall id :: id in w.rows && IsLive(w.rows[id]) ==> IssuedAt(w, id))
    && (forall h :: h in w.chain.executed ==> h.params.safeNonce < w.chain.safeNonce)
  }

  ghost predicate OneEnvelope(w: World) {
    forall a, b :: HasEnvelope(w.rows, a) && HasEnvelope(w.rows, b) ==> a == b
  }

  /** What a command in progress has established, and what it relies on staying true. */
  ghost predicate CommandSound(w: World, ctx: Context) {
    var c := w.command;
    c.Command? ==>
      && RowSound(ctx, c.row)
      && (HasEnvelope(w.rows, c.id) && !c.stage.Leased? ==> w.rows[c.id].safeEnvelope == c.row.safeEnvelope)
      && (Claims(c.kind) && !c.stage.Loaded? && !c.stage.Leased? ==>
            forall x :: HasEnvelope(w.rows, x) ==> x == c.id || (c.stage.HalfScreened? && IsInFlight(w.rows[x])))
      && StageSound(w, ctx, c)
  }

  predicate StageSound(w: World, ctx: Context, c: Command)
    requires c.Command?
  {
    match c.stage
    case HalfScreened => Claims(c.kind)
    case SawNonce(n) => c.row.safeEnvelope.Some? && n <= w.chain.safeNonce
    case Clear =>
      c.row.safeEnvelope.Some? && !c.kind.Releasing? ==> NeverExecutes(w.chain, c.row.safeEnvelope.value.safeTxHash)
    case Ready(e) =>
      && Claims(c.kind) && c.row.payload.Some? && Intact(ctx, c.row.payload.value, e)
      && (c.row.safeEnvelope.Some? && c.row.safeEnvelope != Some(e) ==>
            NeverExecutes(w.chain, c.row.safeEnvelope.value.safeTxHash))
    case _ => true
  }

  ghost predicate Inv(w: World, ctx: Context) {
    RowsSound(w, ctx) && IssuedSound(w) && OneEnvelope(w) && CommandSound(w, ctx)
  }

  // ---- Steps ----------------------------------------------------------------------------------------

  /** Nothing but a claim gives a live row an envelope, and nothing takes one away while the row lives. */
  predicate Kept(before: TxIntent, after: TxIntent) {
    && after.payload == before.payload && after.payloadHash == before.payloadHash
    && after.safeEnvelope == before.safeEnvelope
    && (IsLive(after) ==> IsLive(before))
  }

  predicate Fresh(after: TxIntent) {
    && after.safeEnvelope.None?
    && (after.payloadHash.Some? ==> after.payload.Some? && after.payloadHash.value == HashPayload(after.payload.value))
  }

  lemma BotShape(w: World, op: StoreOp, id: Id)
    requires BotOp(w.rows, op) && id in After(w.rows, op, w.time)
    ensures (id in w.rows && Kept(w.rows[id], After(w.rows, op, w.time)[id])
             && IssuedFor(DoBot(w, op).issued, id) == IssuedFor(w.issued, id))
         || (Fresh(After(w.rows, op, w.time)[id]) && IssuedFor(DoBot(w, op).issued, id) == {})
  {
  }

  lemma BotKeepsEnvelopes(w: World, op: StoreOp, id: Id)
    requires BotOp(w.rows, op) && HasEnvelope(DoBot(w, op).rows, id)
    ensures HasEnvelope(w.rows, id) && DoBot(w, op).rows[id].safeEnvelope == w.rows[id].safeEnvelope
    ensures IsInFlight(w.rows[id]) ==> IsInFlight(DoBot(w, op).rows[id])
  {
    BotShape(w, op, id);
  }

  lemma BotKeeps(w: World, ctx: Context, op: StoreOp)
    requires Inv(w, ctx) && BotOp(w.rows, op)
    ensures Inv(DoBot(w, op), ctx)
  {
    var w' := DoBot(w, op);
    forall id | id in w'.rows
      ensures RowSound(ctx, w'.rows[id]) && (IsLive(w'.rows[id]) ==> IssuedAt(w', id))
    {
      BotShape(w, op, id);
    }
    forall id | HasEnvelope(w'.rows, id)
      ensures HasEnvelope(w.rows, id) && w'.rows[id].safeEnvelope == w.rows[id].safeEnvelope
      ensures IsInFlight(w.rows[id]) ==> IsInFlight(w'.rows[id])
    {
      BotKeepsEnvelopes(w, op, id);
    }
  }

  lemma ExecuteKeeps(w: World, ctx: Context, h: SafeTxHash)
    requires Inv(w, ctx) && h.params.safeNonce == w.chain.safeNonce
    ensures Inv(w.(chain := Executed(w.chain, h)), ctx)
  {
    var w' := w.(chain := Executed(w.chain, h));
    forall id | id in w'.rows && IsLive(w'.rows[id])
      ensures IssuedAt(w', id)
    {
      assert IssuedAt(w, id);
    }
  }

  /** Only the command changes. */
  lemma CommandKeeps(w: World, ctx: Context, c: Command)
    requires Inv(w, ctx) && CommandSound(w.(command := c), ctx)
    ensures Inv(w.(command := c), ctx)
  {
    var w' := w.(command := c);
    forall id | id in w'.rows && IsLive(w'.rows[id])
      ensures IssuedAt(w', id)
    {
      assert IssuedAt(w, id);
    }
  }

  lemma EnvelopeElsewhere(w: World, ctx: Context, id: Id, x: Id)
    requires RowsSound(w, ctx) && !OtherProposal(w.rows, id) && HasEnvelope(w.rows, x)
    ensures x == id || IsInFlight(w.rows[x])
  {
    assert RowSound(ctx, w.rows[x]);
  }

  /** The first read of the screen leaves only rows on the work list. */
  lemma ScreenProposalsKeeps(w: World, ctx: Context)
    requires Inv(w, ctx) && Enabled(w, ctx, ScreenProposals)
    ensures Inv(Apply(w, ctx, ScreenProposals), ctx)
  {
    forall x | HasEnvelope(w.rows, x)
      ensures x == w.command.id || IsInFlight(w.rows[x])
    {
      EnvelopeElsewhere(w, ctx, w.command.id, x);
    }
    CommandKeeps(w, ctx, w.command.(stage := HalfScreened));
  }

  /** No row can have gone from the work list to the proposals in between, so the second read is enough. */
  lemma ScreenInFlightKeeps(w: World, ctx: Context)
    requires Inv(w, ctx) && Enabled(w, ctx, ScreenInFlight)
    ensures Inv(Apply(w, ctx, ScreenInFlight), ctx)
  {
    CommandKeeps(w, ctx, w.command.(stage := Screened));
  }

  lemma BeginKeeps(w: World, ctx: Context, kind: Kind, id: Id)
    requires Inv(w, ctx) && Enabled(w, ctx, Begin(kind, id))
    ensures Inv(Apply(w, ctx, Begin(kind, id)), ctx)
  {
    CommandKeeps(w, ctx, Command(kind, id, w.rows[id], Loaded));
  }

  lemma ClassifyKeeps(w: World, ctx: Context)
    requires Inv(w, ctx) && Enabled(w, ctx, Classify)
    ensures Inv(Apply(w, ctx, Classify), ctx)
  {
    CommandKeeps(w, ctx, DoClassify(w).command);
  }

  /** A freshly built envelope is the zero-gas SafeTx of its payload. */
  lemma BuiltIsIntact(ctx: Context, p: ProposedTx, safeNonce: nat, claimBlock: nat)
    ensures Intact(ctx, p, BuildEnvelope(ctx, p, safeNonce, claimBlock))
  {
  }

  /** A freshly built envelope takes the Safe's current nonce: it could be executed there and then. */
  lemma BuiltIsExecutable(w: World, ctx: Context, claimBlock: nat)
    requires Enabled(w, ctx, Build(claimBlock))
    ensures var stage := Apply(w, ctx, Build(claimBlock)).command.stage;
            && stage.Ready? && stage.envelope.claimBlock == claimBlock
            && Enabled(w, ctx, Execute(stage.envelope.safeTxHash))
            && Intact(ctx, w.command.row.payload.value, stage.envelope)
  {
    BuiltIsIntact(ctx, w.command.row.payload.value, w.chain.safeNonce, claimBlock);
  }

  lemma BuildKeeps(w: World, ctx: Context, claimBlock: nat)
    requires Inv(w, ctx) && Enabled(w, ctx, Build(claimBlock))
    ensures Inv(Apply(w, ctx, Build(claimBlock)), ctx)
  {
    var c := w.command;
    BuiltIsIntact(ctx, c.row.payload.value, w.chain.safeNonce, claimBlock);
    CommandKeeps(w, ctx, c.(stage := Ready(BuildEnvelope(ctx, c.row.payload.value, w.chain.safeNonce, claimBlock))));
  }

  lemma ReadStepKeeps(w: World, ctx: Context, e: Event)
    requires Inv(w, ctx) && Enabled(w, ctx, e)
    requires e.ReadNonce? || e.NoEnvelope? || e.ScanForRelease? || e.Abort?
    ensures Inv(Apply(w, ctx, e), ctx)
  {
    CommandKeeps(w, ctx, Apply(w, ctx, e).command);
  }

  lemma SamePayloadSameHash(ctx: Context, p: ProposedTx, q: ProposedTx, e: SafeEnvelope)
    requires HashPayload(p) == HashPayload(q) && Intact(ctx, p, e)
    ensures Intact(ctx, q, e)
  {
  }

  lemma ClaimKeepsIssued(w: World, ctx: Context)
    requires Inv(w, ctx) && Enabled(w, ctx, Claim)
    ensures RowsSound(DoClaim(w, w.command.stage.envelope), ctx) && IssuedSound(DoClaim(w, w.command.stage.envelope))
  {
    var c := w.command;
    var w' := DoClaim(w, c.stage.envelope);
    forall id | id in w'.rows
      ensures RowSound(ctx, w'.rows[id]) && (IsLive(w'.rows[id]) ==> IssuedAt(w', id))
    {
      assert RowSound(ctx, w.rows[id]) && (IsLive(w.rows[id]) ==> IssuedAt(w, id));
      if id == c.id && w'.rows[id] != w.rows[id] {
        SamePayloadSameHash(ctx, c.row.payload.value, w.rows[id].payload.value, c.stage.envelope);
      }
    }
  }

  lemma ClaimShape(w: World, ctx: Context, x: Id)
    requires Enabled(w, ctx, Claim) && HasEnvelope(DoClaim(w, w.command.stage.envelope).rows, x)
    ensures x == w.command.id || HasEnvelope(w.rows, x)
  {
  }

  lemma ClaimKeeps(w: World, ctx: Context)
    requires Inv(w, ctx) && Enabled(w, ctx, Claim)
    ensures Inv(DoClaim(w, w.command.stage.envelope), ctx)
  {
    var w' := DoClaim(w, w.command.stage.envelope);
    ClaimKeepsIssued(w, ctx);
    forall x | HasEnvelope(w'.rows, x)
      ensures x == w.command.id
    {
      ClaimShape(w, ctx, x);
    }
  }

  predicate OperatorOp(op: StoreOp) {
    op.MarkBroadcastOp? || op.ReleaseOp? || op.FailOp?
  }

  lemma WriteShape(rows: Rows, op: StoreOp, time: nat, id: Id)
    requires OperatorOp(op) && id in After(rows, op, time)
    ensures id in rows && Kept(rows[id], After(rows, op, time)[id])
  {
  }

  lemma WriteKeeps(w: World, ctx: Context, op: StoreOp)
    requires Inv(w, ctx) && OperatorOp(op)
    ensures Inv(Store(w, op).(command := Idle), ctx)
  {
    var w' := Store(w, op).(command := Idle);
    forall id | id in w'.rows
      ensures RowSound(ctx, w'.rows[id]) && (IsLive(w'.rows[id]) ==> IssuedAt(w', id))
    {
      WriteShape(w.rows, op, w.time, id);
    }
    forall id | HasEnvelope(w'.rows, id)
      ensures HasEnvelope(w.rows, id)
    {
      WriteShape(w.rows, op, w.time, id);
    }
  }

  lemma StepKeeps(w: World, ctx: Context, e: Event)
    requires Inv(w, ctx) && Enabled(w, ctx, e)
    ensures Inv(Apply(w, ctx, e), ctx)
  {
    match e
    case Bot(op) => BotKeeps(w, ctx, op);
    case Execute(h) => ExecuteKeeps(w, ctx, h);
    case Begin(kind, id) => BeginKeeps(w, ctx, kind, id);
    case ScreenProposals => ScreenProposalsKeeps(w, ctx);
    case ScreenInFlight => ScreenInFlightKeeps(w, ctx);
    case Classify => ClassifyKeeps(w, ctx);
    case Build(block) => BuildKeeps(w, ctx, block);
    case Claim => ClaimKeeps(w, ctx);
    case MarkBroadcast(hash) =>
      WriteKeeps(w, ctx, MarkBroadcastOp(w.command.id, hash, w.command.row.payloadHash.value));
    case Release => WriteKeeps(w, ctx, ReleaseOp(w.command.id, w.command.row.payloadHash.value));
    case Fail(error) => WriteKeeps(w, ctx, FailOp(w.command.id, error));
    case _ => ReadStepKeeps(w, ctx, e);
  }

  lemma {:induction false} RunKeeps(w: World, ctx: Context, run: seq<Event>)
    requires Inv(w, ctx) && Run(w, ctx, run)
    ensures Inv(Final(w, ctx, run), ctx)
    decreases |run|
  {
    if run != [] {
      StepKeeps(w, ctx, run[0]);
      RunKeeps(Apply(w, ctx, run[0]), ctx, run[1..]);
    }
  }

  lemma Reaches(w0: World, ctx: Context, run: seq<Event>)
    requires Start(w0) && Run(w0, ctx, run)
    ensures Inv(Final(w0, ctx, run), ctx)
  {
    RunKeeps(w0, ctx, run);
  }

  // ---- Safe custody -----------------------------------------------------------------------------------

  /** While a row lives, at most one SafeTx ever issued for it has executed, and no other one still can. */
  lemma AtMostOneExecutes(w0: World, ctx: Context, run: seq<Event>, id: Id, g: SafeTxHash, h: SafeTxHash)
    requires Start(w0) && Run(w0, ctx, run)
    requires var w := Final(w0, ctx, run);
             id in w.rows && IsLive(w.rows[id]) && g in IssuedFor(w.issued, id) && h in IssuedFor(w.issued, id)
             && g != h
    ensures var w := Final(w0, ctx, run); NeverExecutes(w.chain, g) || NeverExecutes(w.chain, h)
  {
    Reaches(w0, ctx, run);
    assert IssuedAt(Final(w0, ctx, run), id);
  }

  /** A different SafeTx is issued only after every earlier one's nonce has passed without executing it. */
  lemma NewSafeTxOnlyAfterTheOld(w0: World, ctx: Context, run: seq<Event>, e: Event, id: Id, g: SafeTxHash,
                                 h: SafeTxHash)
    requires Start(w0) && Run(w0, ctx, run) && Enabled(Final(w0, ctx, run), ctx, e)
    requires g in IssuedFor(Final(w0, ctx, run).issued, id) && h !in IssuedFor(Final(w0, ctx, run).issued, id)
    requires h in IssuedFor(Apply(Final(w0, ctx, run), ctx, e).issued, id)
    ensures NeverExecutes(Final(w0, ctx, run).chain, g)
  {
    Reaches(w0, ctx, run);
    IssueNeedsDead(Final(w0, ctx, run), ctx, e, id, g, h);
  }

  lemma OnlyClaimIssues(w: World, ctx: Context, e: Event, id: Id, h: SafeTxHash)
    requires Enabled(w, ctx, e) && h !in IssuedFor(w.issued, id) && h in IssuedFor(Apply(w, ctx, e).issued, id)
    ensures e.Claim? && id == w.command.id && h == w.command.stage.envelope.safeTxHash
    ensures id in w.rows && w.rows[id].status == Proposed
  {
  }

  lemma IssueNeedsDead(w: World, ctx: Context, e: Event, id: Id, g: SafeTxHash, h: SafeTxHash)
    requires Inv(w, ctx) && Enabled(w, ctx, e) && g in IssuedFor(w.issued, id)
    requires h !in IssuedFor(w.issued, id) && h in IssuedFor(Apply(w, ctx, e).issued, id)
    ensures NeverExecutes(w.chain, g)
  {
    OnlyClaimIssues(w, ctx, e, id, h);
    assert IssuedAt(w, id);
  }

  /** Never executing is for good. */
  lemma {:induction false} NeverExecutesIsFinal(w: World, ctx: Context, run: seq<Event>, h: SafeTxHash)
    requires Run(w, ctx, run) && NeverExecutes(w.chain, h)
    ensures NeverExecutes(Final(w, ctx, run).chain, h)
    decreases |run|
  {
    if run != [] {
      assert NeverExecutes(Apply(w, ctx, run[0]).chain, h);
      NeverExecutesIsFinal(Apply(w, ctx, run[0]), ctx, run[1..], h);
    }
  }

  /** At most one live row carries an envelope, and it is the zero-gas SafeTx of that row's own payload. */
  lemma OneIntactEnvelope(w0: World, ctx: Context, run: seq<Event>, a: Id, b: Id)
    requires Start(w0) && Run(w0, ctx, run)
    requires HasEnvelope(Final(w0, ctx, run).rows, a) && HasEnvelope(Final(w0, ctx, run).rows, b)
    ensures a == b
    ensures var r := Final(w0, ctx, run).rows[a]; r.payload.Some? && Intact(ctx, r.payload.value, r.safeEnvelope.value)
  {
    Reaches(w0, ctx, run);
    assert RowSound(ctx, Final(w0, ctx, run).rows[a]);
  }

  /**
   * A live row with an envelope is never superseded or expired and keeps its payload; it keeps the
   * envelope too, until a claim replaces one that can never execute.
   */
  lemma EnvelopeRowIsKept(w0: World, ctx: Context, run: seq<Event>, e: Event, id: Id)
    requires Start(w0) && Run(w0, ctx, run) && Enabled(Final(w0, ctx, run), ctx, e)
    requires HasEnvelope(Final(w0, ctx, run).rows, id)
    ensures var w := Final(w0, ctx, run);
            id in Apply(w, ctx, e).rows && KeepsCustody(w.chain, w.rows[id], Apply(w, ctx, e).rows[id])
  {
    Reaches(w0, ctx, run);
    EnvelopeRowStep(Final(w0, ctx, run), ctx, e, id);
  }

  /** The row's call stays what it was, and its envelope too, unless a dead one makes room for another. */
  predicate KeepsCustody(c: SafeState, before: TxIntent, after: TxIntent) {
    && after.payload == before.payload && after.payloadHash == before.payloadHash
    && after.status !in {Superseded, Expired}
    && (after.safeEnvelope == before.safeEnvelope
        || (before.safeEnvelope.Some? && after.safeEnvelope.Some?
            && NeverExecutes(c, before.safeEnvelope.value.safeTxHash)))
  }

  lemma BotKeepsRow(w: World, op: StoreOp, id: Id)
    requires BotOp(w.rows, op) && HasEnvelope(w.rows, id)
    ensures id in After(w.rows, op, w.time) && KeepsCustody(w.chain, w.rows[id], After(w.rows, op, w.time)[id])
  {
    LiveRowsAreNotOverwritten(w.rows, op, w.time, id);
    EnvelopesAreKept(w.rows, op, w.time, id);
  }

  lemma ClaimKeepsRow(w: World, ctx: Context, id: Id)
    requires Inv(w, ctx) && Enabled(w, ctx, Claim) && HasEnvelope(w.rows, id)
    ensures var rows := DoClaim(w, w.command.stage.envelope).rows;
            id in rows && KeepsCustody(w.chain, w.rows[id], rows[id])
  {
  }

  lemma WriteKeepsRow(w: World, op: StoreOp, id: Id)
    requires OperatorOp(op) && HasEnvelope(w.rows, id)
    ensures id in After(w.rows, op, w.time) && KeepsCustody(w.chain, w.rows[id], After(w.rows, op, w.time)[id])
  {
  }

  lemma EnvelopeRowStep(w: World, ctx: Context, e: Event, id: Id)
    requires Inv(w, ctx) && Enabled(w, ctx, e) && HasEnvelope(w.rows, id)
    ensures id in Apply(w, ctx, e).rows && KeepsCustody(w.chain, w.rows[id], Apply(w, ctx, e).rows[id])
  {
    match e
    case Bot(op) => BotKeepsRow(w, op, id);
    case Claim => ClaimKeepsRow(w, ctx, id);
    case MarkBroadcast(hash) =>
      WriteKeepsRow(w, MarkBroadcastOp(w.command.id, hash, w.command.row.payloadHash.value), id);
    case Release => WriteKeepsRow(w, ReleaseOp(w.command.id, w.command.row.payloadHash.value), id);
    case Fail(error) => WriteKeepsRow(w, FailOp(w.command.id, error), id);
    case _ =>
  }

  /** Giving up ends a row with an envelope only once that SafeTx can never execute. */
  lemma FailEndsOnlyTheDead(w0: World, ctx: Context, run: seq<Event>, error: Option<string>, id: Id)
    requires Start(w0) && Run(w0, ctx, run) && Enabled(Final(w0, ctx, run), ctx, Fail(error))
    requires HasEnvelope(Final(w0, ctx, run).rows, id)
    requires !IsLive(Apply(Final(w0, ctx, run), ctx, Fail(error)).rows[id])
    ensures NeverExecutes(Final(w0, ctx, run).chain, Final(w0, ctx, run).rows[id].safeEnvelope.value.safeTxHash)
  {
    Reaches(w0, ctx, run);
  }

  /** A claim goes on with the very envelope the row has if that is live, and with a new one only past a dead one. */
  lemma LiveEnvelopeIsReused(w: World, ctx: Context)
    requires Enabled(w, ctx, Classify)
    ensures var e, c := w.command.row.safeEnvelope.value, Apply(w, ctx, Classify).command;
            if w.command.stage.nonce == e.params.safeNonce then c.stage == Ready(e)
            else c.stage == Clear && e.params.safeNonce < w.command.stage.nonce && e.safeTxHash !in w.chain.executed
  {
  }

  /** A row whose envelope is tampered with, ahead of the chain or already executed is neither claimed nor failed. */
  lemma OnlyLiveOrDeadProceeds(w: World, ctx: Context)
    requires w.command.Command? && w.command.stage.SawNonce?
    requires w.command.row.safeEnvelope.Some? && w.command.row.payload.Some?
    ensures var e, n := w.command.row.safeEnvelope.value, w.command.stage.nonce;
            Enabled(w, ctx, Classify) <==>
              && Intact(ctx, w.command.row.payload.value, e)
              && (|| (Claims(w.command.kind) && n == e.params.safeNonce)
                  || (e.params.safeNonce < n && e.safeTxHash !in w.chain.executed))
  {
  }

  // ---- Commands that go through -------------------------------------------------------------------------

  /** A command starts only on a row whose payload is the one that was proposed, for this chain, in the right status. */
  lemma BeginsExactly(w: World, ctx: Context, kind: Kind, id: Id)
    ensures Enabled(w, ctx, Begin(kind, id)) <==>
              && w.command.Idle? && id in w.rows
              && w.rows[id].payload.Some? && w.rows[id].payload.value.chainId == ctx.chainId
              && w.rows[id].payloadHash == Some(HashPayload(w.rows[id].payload.value))
              && (kind == Broadcasting ==> w.rows[id].status == Proposed)
              && (kind in {Confirming, Releasing} ==> w.rows[id].status == Claimed)
  {
  }

  /** A row with an envelope is released only after a scan that did not find its SafeTx executed. */
  lemma ReleasesOnlyUnexecuted(w: World, ctx: Context)
    requires At(w, Loaded) && w.command.kind == Releasing && w.command.row.safeEnvelope.Some?
    requires w.command.row.payload.Some? && Intact(ctx, w.command.row.payload.value, w.command.row.safeEnvelope.value)
    ensures Enabled(w, ctx, ScanForRelease) <==> w.command.row.safeEnvelope.value.safeTxHash !in w.chain.executed
    ensures !Enabled(w, ctx, NoEnvelope)
  {
  }

  /** The command has been screened and has a fresh envelope in hand. */
  function Prepared(w: World, ctx: Context, kind: Kind, id: Id, block: nat): World
    requires id in w.rows && w.rows[id].payload.Some?
  {
    w.(command := Command(kind, id, w.rows[id],
                          Ready(BuildEnvelope(ctx, w.rows[id].payload.value, w.chain.safeNonce, block))))
  }

  /** The run leads from `w` to `end`. */
  predicate Leads(w: World, ctx: Context, run: seq<Event>, end: World) {
    Run(w, ctx, run) && Final(w, ctx, run) == end
  }

  lemma OneMoreStep(w: World, ctx: Context, e: Event, run: seq<Event>, end: World)
    requires Enabled(w, ctx, e) && Leads(Apply(w, ctx, e), ctx, run, end)
    ensures Leads(w, ctx, [e] + run, end)
  {
    assert ([e] + run)[0] == e && ([e] + run)[1..] == run;
  }

  lemma ScreensUndisturbed(w: World, ctx: Context, run: seq<Event>, end: World)
    requires At(w, Loaded) && Claims(w.command.kind)
    requires !OtherProposal(w.rows, w.command.id) && !OtherInFlight(w.rows, w.command.id)
    requires Leads(w.(command := w.command.(stage := Screened)), ctx, run, end)
    ensures Leads(w, ctx, [ScreenProposals] + ([ScreenInFlight] + run), end)
  {
    var half := w.(command := w.command.(stage := HalfScreened));
    OneMoreStep(half, ctx, ScreenInFlight, run, end);
    OneMoreStep(w, ctx, ScreenProposals, [ScreenInFlight] + run, end);
  }

  lemma BuildsUndisturbed(w: World, ctx: Context, block: nat, end: World)
    requires At(w, Screened) && Claims(w.command.kind)
    requires w.command.row.safeEnvelope.None? && w.command.row.payload.Some?
    requires end == w.(command := w.command.(stage := Ready(BuildEnvelope(ctx, w.command.row.payload.value,
                                                                         w.chain.safeNonce, block))))
    ensures Leads(w, ctx, [NoEnvelope] + ([Build(block)] + []), end)
  {
    var clear := w.(command := w.command.(stage := Clear));
    assert Leads(end, ctx, [], end);
    OneMoreStep(clear, ctx, Build(block), [], end);
    OneMoreStep(w, ctx, NoEnvelope, [Build(block)] + [], end);
  }

  /** An undisturbed claim gets past its screen to a fresh envelope whenever no other row carries one. */
  lemma PreparesUndisturbed(w: World, ctx: Context, kind: Kind, id: Id, block: nat) returns (run: seq<Event>)
    requires Enabled(w, ctx, Begin(kind, id)) && Claims(kind) && w.rows[id].safeEnvelope.None?
    requires !OtherProposal(w.rows, id) && !OtherInFlight(w.rows, id)
    ensures Leads(w, ctx, run, Prepared(w, ctx, kind, id, block))
  {
    var loaded := w.(command := Command(kind, id, w.rows[id], Loaded));
    var screened := w.(command := Command(kind, id, w.rows[id], Screened));
    run := [NoEnvelope] + ([Build(block)] + []);
    BuildsUndisturbed(screened, ctx, block, Prepared(w, ctx, kind, id, block));
    ScreensUndisturbed(loaded, ctx, run, Prepared(w, ctx, kind, id, block));
    run := [ScreenProposals] + ([ScreenInFlight] + run);
    OneMoreStep(w, ctx, Begin(kind, id), run, Prepared(w, ctx, kind, id, block));
    run := [Begin(kind, id)] + run;
  }

  /**
   * An undisturbed claim goes through: the row is claimed under a fresh envelope. A broadcasting one may then report
   * its transaction, and the row is submitted under it.
   */
  lemma ClaimGoesThrough(w: World, ctx: Context, kind: Kind, id: Id, block: nat, hash: TxHash)
    requires Enabled(w, ctx, Begin(kind, id)) && Claims(kind) && w.rows[id].safeEnvelope.None?
    requires w.rows[id].status == Proposed && w.rows[id].txHash.None?
    ensures var ready := Prepared(w, ctx, kind, id, block);
            && Enabled(ready, ctx, Claim)
            && var claimed := Apply(ready, ctx, Claim);
               && claimed.rows[id].status == Claimed
               && claimed.rows[id].safeEnvelope == Some(ready.command.stage.envelope)
               && (kind == Broadcasting ==>
                     && Enabled(claimed, ctx, MarkBroadcast(hash))
                     && Apply(claimed, ctx, MarkBroadcast(hash)).rows[id].status == Submitted
                     && Apply(claimed, ctx, MarkBroadcast(hash)).rows[id].txHash == Some(hash))
               && (kind == Claiming ==> claimed.command == Idle)
  {
  }

  // ---- The classification, against the chain ------------------------------------------------------------

  /**
   * With an intact envelope and true reads, the nonce first, `Dead` means the SafeTx can never execute and
   * `Live` that it still could when the nonce was read.
   */
  lemma ClassificationIsSound(ctx: Context, p: ProposedTx, e: SafeEnvelope, read: SafeState, scan: SafeState)
    requires read.safeNonce <= scan.safeNonce && read.executed <= scan.executed
    requires forall h :: h in read.executed ==> h.params.safeNonce < read.safeNonce
    requires Intact(ctx, p, e)
    ensures var verdict := ClassifyRetained(ctx, p, e, read.safeNonce, e.safeTxHash in scan.executed);
            && (verdict == Dead ==> NeverExecutes(scan, e.safeTxHash))
            && (verdict == Live ==> e.safeTxHash.params.safeNonce == read.safeNonce && e.safeTxHash !in read.executed)
            && (verdict == Dead <==> e.params.safeNonce < read.safeNonce && e.safeTxHash !in scan.executed)
            && (verdict == Live <==> e.params.safeNonce == read.safeNonce)
            && (verdict == AlreadyExecuted <==> e.params.safeNonce < read.safeNonce && e.safeTxHash in scan.executed)
            && verdict != Tampered
            && (verdict == AheadOfChain <==> read.safeNonce < e.params.safeNonce)
  {
  }
}
