/**
 Riding a settlement batch over an untrusted event stream. Whatever the stream says, what the client sends
 out is a prefix of one fixed five-message script for one batch, each message sent only once it is justified.
*/
module BatchJoin {
  import opened Common
  import opened BatchGraph
  import opened BatchTrees
  import opened BatchForfeits

  type BatchId = string
  type Nonce = nat

  datatype Kind = Vtxo | Connector

  datatype Event =
    | Idle // stream started, heartbeat, aggregated nonces
    | BatchStarted(id: BatchId, intentHashes: seq<string>, expiry: Expiry, now: int)
    | TreeTx(id: BatchId, kind: Kind, chunk: Chunk)
    | TreeSignature(id: BatchId, kind: Kind, txid: Txid, signature: Signature)
    | SigningStarted(id: BatchId, cosigners: set<Key>, commitment: Transaction)
    | TreeNonces(id: BatchId, txid: Txid, nonces: map<Key, Nonce>)
    | Finalization(id: BatchId, commitment: Transaction)
    | Finalized(id: BatchId, commitmentId: Txid)
    | Failed(id: BatchId)

  /**
   An event and how the work done for it fares: what the libraries prepare before anything is sent, the first call,
   and, for finalization, the emulator's answers and the second call.
  */
  datatype Arrival = Arrival(event: Event, prepares: bool, first: bool, answers: seq<Answer>, second: bool)

  /** What the client knows, and what it leaves to libraries: building a graph, checking a node's signature, forfeits. */
  datatype Client = Client(
    intentHash: string,
    inputExpiresAt: int,
    rules: Rules,
    signers: Signers,
    builds: seq<Chunk> -> bool,
    signedNode: (seq<Chunk>, Transaction, Txid, Signature) -> bool,
    forfeits: seq<Chunk> -> seq<Forfeit>)
  {
    /** The nodes of a received graph, if the library builds one of it. */
    function GraphNodes(chunks: seq<Chunk>): Option<set<Txid>> {
      if builds(chunks) then Some(Nodes(chunks).Keys) else None
    }
  }

  /** A request the client sends; it is logged whether or not the reply arrives. */
  datatype Message =
    | Confirm
    | SubmitNonces(batch: BatchId)
    | SubmitSignatures(batch: BatchId, nonces: map<Txid, map<Key, Nonce>>)
    | ReleaseForfeits(commitment: Transaction, connectors: seq<Chunk>)
    | SubmitForfeits(merged: seq<Signatures>)

  datatype JoinError =
    | StreamClosed | OutOfOrder | ExpiryTooShort | NotPrepared | CallFailed | UnexpectedChunk | TooManyChunks | UnknownNode
    | NotACosigner | InvalidTree | DuplicateNonces | MissingNonce | ChangedCommitment | Unsigned | InvalidConnectors
    | BadForfeits | ForeignCommitment | BatchAborted

  datatype Outcome = Outcome(commitmentId: Txid, leaf: OutPoint)

  // ----- progress -----

  datatype Step = Start | Started | Signing | Submitted

  class BatchProgress {
    var step: Step
    var batch: Option<BatchId>
    var signaturesSubmitted: bool
    var expected: Option<Txid>

    constructor ()
      ensures step == Start && batch == None && !signaturesSubmitted && expected == None
    {
      step, batch, signaturesSubmitted, expected := Start, None, false, None;
    }

    predicate Matches(id: BatchId)
      reads this
    {
      batch == Some(id)
    }

    predicate AcceptsChunk(id: BatchId)
      reads this
    {
      (step == Started || step == Signing) && Matches(id)
    }

    predicate AcceptsNonces(id: BatchId)
      reads this
    {
      step == Signing && Matches(id) && !signaturesSubmitted
    }

    predicate AcceptsFinalization(id: BatchId)
      reads this
    {
      step == Signing && Matches(id) && signaturesSubmitted
    }

    method BeginBatch(id: BatchId) returns (ok: bool)
      modifies this
      ensures ok == (old(step) == Start)
      ensures step == if ok then Started else old(step)
      ensures batch == if ok then Some(id) else old(batch)
      ensures signaturesSubmitted == old(signaturesSubmitted) && expected == old(expected)
    {
      if step != Start { return false; }
      batch, step := Some(id), Started;
      return true;
    }

    method MarkSigning(id: BatchId) returns (ok: bool)
      modifies this`step
      ensures ok == (old(step) == Started && batch == Some(id))
      ensures step == if ok then Signing else old(step)
    {
      if step != Started || !Matches(id) { return false; }
      step := Signing;
      return true;
    }

    method MarkSignatures(id: BatchId) returns (ok: bool)
      modifies this`signaturesSubmitted
      ensures ok == old(step == Signing && batch == Some(id) && !signaturesSubmitted)
      ensures signaturesSubmitted == (ok || old(signaturesSubmitted))
    {
      if !AcceptsNonces(id) { return false; }
      signaturesSubmitted := true;
      return true;
    }

    method MarkSubmitted(id: BatchId, commitment: Txid) returns (ok: bool)
      modifies this`step, this`expected
      ensures ok == old(step == Signing && batch == Some(id) && signaturesSubmitted)
      ensures step == if ok then Submitted else old(step)
      ensures expected == if ok then Some(commitment) else old(expected)
    {
      if !AcceptsFinalization(id) { return false; }
      expected, step := Some(commitment), Submitted;
      return true;
    }

    /** Whether this finalization ends the join; a foreign commitment for our batch is an error. */
    method Finalize(id: BatchId, commitment: Txid) returns (r: Result<bool, JoinError>)
      ensures r == if step != Submitted || batch != Some(id) then Ok(false)
                   else if expected == Some(commitment) then Ok(true) else Err(ForeignCommitment)
    {
      if step != Submitted || !Matches(id) { return Ok(false); }
      if expected != Some(commitment) { return Err(ForeignCommitment); }
      return Ok(true);
    }
  }

  // ----- the script every join follows -----

  /** One possible join: its batch, the stream positions of its three phases, and what it gathered. */
  datatype Script = Script(
    batch: BatchId, start: nat, expiry: Expiry,
    signing: nat, commitment: Transaction, leaf: OutPoint, signed: nat, nonces: map<Txid, map<Key, Nonce>>,
    final: nat, signatures: map<Txid, Signature>, answers: seq<Answer>)

  function EventAt(arrivals: seq<Arrival>, i: nat): Event { if i < |arrivals| then arrivals[i].event else Idle }

  /** The chunks of one batch and kind in a stretch of the stream, in order. */
  function Collected(arrivals: seq<Arrival>, batch: BatchId, kind: Kind, from: nat, to: nat): seq<Chunk> {
    if to <= from then []
    else
      var event := EventAt(arrivals, to - 1);
      var before := Collected(arrivals, batch, kind, from, to - 1);
      if event.TreeTx? && event.id == batch && event.kind == kind then before + [event.chunk] else before
  }

  function VtxoChunks(s: Script, arrivals: seq<Arrival>): seq<Chunk> {
    Collected(arrivals, s.batch, Vtxo, s.start, s.signing)
  }

  function ConnectorChunks(s: Script, arrivals: seq<Arrival>): seq<Chunk> {
    Collected(arrivals, s.batch, Connector, s.start, s.final)
  }

  /** Signatures that nodes carry when they are received. */
  function Presigned(chunks: seq<Chunk>): map<Txid, Signature> {
    var nodes := Nodes(chunks);
    map n | n in nodes && nodes[n].signature.Some? :: nodes[n].signature.value
  }

  /** The tree signatures at hand before event `to`: what the chunks carried, overridden by what came since `from`. */
  function Delivered(arrivals: seq<Arrival>, batch: BatchId, chunks: seq<Chunk>, from: nat, to: nat): map<Txid, Signature> {
    if to <= from then Presigned(chunks)
    else
      var event := EventAt(arrivals, to - 1);
      var before := Delivered(arrivals, batch, chunks, from, to - 1);
      if event.TreeSignature? && event.id == batch && event.kind == Vtxo then before[event.txid := event.signature] else before
  }

  /** The nonces heard for the nodes of a batch: those of the events that name our key. */
  function Heard(cosigner: Key, arrivals: seq<Arrival>, batch: BatchId, from: nat, to: nat): map<Txid, map<Key, Nonce>> {
    if to <= from then map[]
    else
      var event := EventAt(arrivals, to - 1);
      var before := Heard(cosigner, arrivals, batch, from, to - 1);
      if event.TreeNonces? && event.id == batch && cosigner in event.nonces then before[event.txid := event.nonces] else before
  }

  /** Event `k` delivers a signature of this batch for node `n`. */
  predicate Delivers(arrivals: seq<Arrival>, batch: BatchId, k: nat, n: Txid) {
    var e := EventAt(arrivals, k);
    e.TreeSignature? && e.id == batch && e.kind == Vtxo && e.txid == n
  }

  predicate Outlives(expiry: Expiry, inputExpiresAt: int, now: int) {
    expiry.Time? && 0 < inputExpiresAt - now <= 512 * expiry.units
  }

  /** The batch named our intent and outlives the input. */
  predicate MayConfirm(client: Client, s: Script, arrivals: seq<Arrival>) {
    var e := EventAt(arrivals, s.start);
    && e.BatchStarted? && e.id == s.batch && e.expiry == s.expiry
    && client.intentHash in e.intentHashes
    && e.expiry.Time? && 0 < client.inputExpiresAt - e.now <= 512 * e.expiry.units
  }

  /** The tree received for the batch is valid for its commitment and holds our leaf; we are among its cosigners. */
  ghost predicate MayNonce(client: Client, s: Script, arrivals: seq<Arrival>) {
    var e := EventAt(arrivals, s.signing);
    && e.SigningStarted? && e.id == s.batch && e.commitment == s.commitment && client.rules.cosigner in e.cosigners
    && VtxoTree(client.rules, VtxoChunks(s, arrivals), s.commitment, s.expiry, e.cosigners, s.leaf)
    && client.builds(VtxoChunks(s, arrivals))
  }

  /** There is exactly one set of nonces per node of that tree, each including our own: those the stream gave. */
  predicate MaySign(client: Client, s: Script, arrivals: seq<Arrival>) {
    && s.nonces.Keys == Nodes(VtxoChunks(s, arrivals)).Keys
    && (forall n <- s.nonces :: client.rules.cosigner in s.nonces[n])
    && s.signing < s.signed && s.nonces == Heard(client.rules.cosigner, arrivals, s.batch, s.signing + 1, s.signed + 1)
  }

  predicate AllSigned(client: Client, chunks: seq<Chunk>, commitment: Transaction, signatures: map<Txid, Signature>) {
    match client.GraphNodes(chunks)
    case None => false
    case Some(nodes) =>
      forall n <- nodes :: n in signatures && client.signedNode(chunks, commitment, n, signatures[n])
  }

  /** Every received node has a signature valid for the commitment. */
  predicate TreeSigned(client: Client, chunks: seq<Chunk>, commitment: Transaction, signatures: map<Txid, Signature>) {
    forall n <- Nodes(chunks) :: n in signatures && client.signedNode(chunks, commitment, n, signatures[n])
  }

  lemma AllSignedIsTreeSigned(client: Client, chunks: seq<Chunk>, commitment: Transaction, signatures: map<Txid, Signature>)
    ensures AllSigned(client, chunks, commitment, signatures) <==>
              client.builds(chunks) && TreeSigned(client, chunks, commitment, signatures)
  {
    hide Nodes;
  }

  /** Every node is signed for the validated commitment, and the connectors hang off that same commitment. */
  ghost predicate MayForfeit(client: Client, s: Script, arrivals: seq<Arrival>) {
    var e := EventAt(arrivals, s.final);
    && e.Finalization? && e.id == s.batch && e.commitment == s.commitment
    && s.signatures == Delivered(arrivals, s.batch, VtxoChunks(s, arrivals), s.signing + 1, s.final)
    && TreeSigned(client, VtxoChunks(s, arrivals), s.commitment, s.signatures)
    && ConnectorTree(client.rules, ConnectorChunks(s, arrivals), s.commitment)
  }

  /** The log is a prefix of the script's five messages, each justified when it was sent. */
  ghost predicate Lawful(client: Client, arrivals: seq<Arrival>, log: seq<Message>, s: Script) {
    && |log| <= 5
    && (|log| >= 1 ==> log[0] == Confirm && MayConfirm(client, s, arrivals))
    && (|log| >= 2 ==> s.start < s.signing && log[1] == SubmitNonces(s.batch) && MayNonce(client, s, arrivals))
    && (|log| >= 3 ==> log[2] == SubmitSignatures(s.batch, s.nonces) && MaySign(client, s, arrivals))
    && (|log| >= 4 ==> && s.signing < s.final
                       && log[3] == ReleaseForfeits(s.commitment, ConnectorChunks(s, arrivals))
                       && MayForfeit(client, s, arrivals))
    && (|log| >= 5 ==> && log[4].SubmitForfeits? && s.final < |arrivals| && s.answers == arrivals[s.final].answers
                       && Merges(client.signers, client.forfeits(ConnectorChunks(s, arrivals)), s.answers, log[4].merged))
  }

  predicate Released(log: seq<Message>) { exists m <- log :: m.ReleaseForfeits? }

  // ----- the join loop -----

  /** The loop's local variables; a taken chunk list leaves `None` behind. */
  datatype Locals = Locals(
    expiry: Option<Expiry>, vtxo: Option<seq<Chunk>>, graph: Option<seq<Chunk>>, connectors: Option<seq<Chunk>>,
    commitment: Option<Transaction>, leaf: Option<OutPoint>,
    nonces: map<Txid, map<Key, Nonce>>, signatures: map<Txid, Signature>, log: seq<Message>)

  const FRESH := Locals(None, Some([]), None, Some([]), None, None, map[], map[], [])

  /** The loop's whole state. */
  datatype Stage = Stage(step: Step, batch: Option<BatchId>, signed: bool, expected: Option<Txid>, l: Locals)

  ghost function StageOf(progress: BatchProgress, l: Locals): Stage
    reads progress
  {
    Stage(progress.step, progress.batch, progress.signaturesSubmitted, progress.expected, l)
  }

  /** What the loop knows before event `i`: how the script so far explains its state. */
  ghost predicate Known(client: Client, arrivals: seq<Arrival>, i: nat, g: Stage, s: Script) {
    var l := g.l;
    && Lawful(client, arrivals, l.log, s)
    && (g.step.Start? ==> l == FRESH && g.batch == None && !g.signed)
    && (!g.step.Start? ==> g.batch == Some(s.batch) && l.expiry == Some(s.expiry) && s.start < i)
    && (g.step.Started? ==>
          && |l.log| == 1 && !g.signed && l.nonces == map[] && l.signatures == map[]
          && l.vtxo == Some(Collected(arrivals, s.batch, Vtxo, s.start, i))
          && l.connectors == Some(Collected(arrivals, s.batch, Connector, s.start, i)))
    && (g.step.Signing? ==>
          && |l.log| == (if g.signed then 3 else 2) && s.signing < i
          && l.vtxo == None && l.graph == Some(VtxoChunks(s, arrivals))
          && l.connectors == Some(Collected(arrivals, s.batch, Connector, s.start, i))
          && l.commitment == Some(s.commitment) && l.leaf == Some(s.leaf)
          && l.signatures == Delivered(arrivals, s.batch, VtxoChunks(s, arrivals), s.signing + 1, i)
          && l.nonces.Keys <= TreeNodes(l)
          && (forall n <- l.nonces :: client.rules.cosigner in l.nonces[n])
          && (if g.signed then l.nonces == s.nonces && s.signed < i
              else l.nonces == Heard(client.rules.cosigner, arrivals, s.batch, s.signing + 1, i)))
    && (g.step.Submitted? ==> |l.log| == 5 && g.signed && g.expected == Some(s.commitment.id) && l.leaf == Some(s.leaf))
  }

  /** The nodes of the tree that is being signed. */
  function TreeNodes(l: Locals): set<Txid> { if l.graph.Some? then Nodes(l.graph.value).Keys else {} }

  function NodesOf(client: Client, l: Locals): set<Txid> {
    if l.graph.Some? && client.GraphNodes(l.graph.value).Some? then client.GraphNodes(l.graph.value).value else {}
  }

  predicate Starts(client: Client, e: Event) { e.BatchStarted? && client.intentHash in e.intentHashes }

  predicate Signs(batch: BatchId, e: Event) { e.SigningStarted? && e.id == batch }

  predicate Offers(client: Client, batch: BatchId, e: Event) {
    e.TreeNonces? && e.id == batch && client.rules.cosigner in e.nonces
  }

  predicate Finalizes(batch: BatchId, e: Event) { e.Finalization? && e.id == batch }

  predicate Settles(batch: BatchId, e: Event) { e.Finalized? && e.id == batch }

  /** Nothing was missed: the events that move the script on were each taken the first time they came. */
  ghost predicate Awaits(client: Client, arrivals: seq<Arrival>, i: nat, g: Stage, s: Script) {
    && (forall k :: 0 <= k < (if g.step.Start? then i else s.start) ==> !Starts(client, EventAt(arrivals, k)))
    && (!g.step.Start? ==>
          && (forall k :: s.start < k < i ==> EventAt(arrivals, k) != Failed(s.batch))
          && (forall k :: s.start < k < (if g.step.Started? then i else s.signing) ==> !Signs(s.batch, EventAt(arrivals, k))))
    && (g.step.Signing? && !g.signed ==>
          && (g.l.nonces == map[] || g.l.nonces.Keys != TreeNodes(g.l))
          && (forall k :: s.signing < k < i && Offers(client, s.batch, EventAt(arrivals, k)) ==> EventAt(arrivals, k).txid in g.l.nonces))
    && (g.signed ==>
          forall k :: s.signed < k < (if g.step.Signing? then i else s.final) ==> !Finalizes(s.batch, EventAt(arrivals, k)))
    && (g.step.Submitted? ==> forall k :: s.final < k < i ==> !Settles(s.batch, EventAt(arrivals, k)))
  }

  ghost predicate Knows(client: Client, arrivals: seq<Arrival>, i: nat, progress: BatchProgress, l: Locals, s: Script)
    reads progress
  {
    Known(client, arrivals, i, StageOf(progress, l), s) && Awaits(client, arrivals, i, StageOf(progress, l), s)
  }

  lemma Begins(client: Client, arrivals: seq<Arrival>, s: Script)
    ensures Known(client, arrivals, 0, Stage(Start, None, false, None, FRESH), s)
    ensures Awaits(client, arrivals, 0, Stage(Start, None, false, None, FRESH), s)
  {}

  lemma Follows(client: Client, arrivals: seq<Arrival>, i: nat, progress: BatchProgress, l: Locals, s: Script)
    requires Knows(client, arrivals, i, progress, l, s)
    ensures Lawful(client, arrivals, l.log, s)
  {}

  /** The event leaves the script where it is. */
  predicate Quiet(client: Client, g: Stage, e: Event) {
    && (g.step.Start? ==> !Starts(client, e))
    && (g.batch.Some? ==>
          && e != Failed(g.batch.value)
          && (g.step.Started? ==> !Signs(g.batch.value, e))
          && (g.step.Signing? && !g.signed ==> !Offers(client, g.batch.value, e))
          && (g.step.Signing? && g.signed ==> !Finalizes(g.batch.value, e))
          && (g.step.Submitted? ==> !Settles(g.batch.value, e)))
  }

  /** Events that neither carry a chunk nor move the script leave everything as it is. */
  lemma Ignoring(client: Client, arrivals: seq<Arrival>, i: nat, progress: BatchProgress, l: Locals, s: Script)
    requires Knows(client, arrivals, i, progress, l, s) && !EventAt(arrivals, i).TreeTx? && !EventAt(arrivals, i).TreeSignature?
    requires Quiet(client, StageOf(progress, l), EventAt(arrivals, i))
    ensures Knows(client, arrivals, i + 1, progress, l, s)
  {
    hide Lawful;
    StillAwaits(client, arrivals, i, StageOf(progress, l), StageOf(progress, l), s);
  }

  lemma StillAwaits(client: Client, arrivals: seq<Arrival>, i: nat, g: Stage, g': Stage, s: Script)
    requires Known(client, arrivals, i, g, s) && Awaits(client, arrivals, i, g, s) && Quiet(client, g, EventAt(arrivals, i))
    requires g'.step == g.step && g'.batch == g.batch && g'.signed == g.signed
    requires g'.l.nonces == g.l.nonces && g'.l.graph == g.l.graph
    ensures Awaits(client, arrivals, i + 1, g', s)
  {
    hide Lawful;
  }

  // ----- how a join fails -----

  function Taken(l: Locals, kind: Kind): Option<seq<Chunk>> { if kind == Vtxo then l.vtxo else l.connectors }

  /** How a prepared call fails. */
  function Sending(prepared: bool, answered: bool): Option<JoinError> {
    if !prepared then Some(NotPrepared) else if !answered then Some(CallFailed) else None
  }

  /** How the two calls of a finalization fail, the merge of the forfeits between them. */
  function Forfeiting(client: Client, connectors: seq<Chunk>, a: Arrival): Option<JoinError> {
    if Sending(a.prepares, a.first).Some? then Sending(a.prepares, a.first)
    else if !AllCompleted(client.signers, client.forfeits(connectors), a.answers) then Some(BadForfeits)
    else Sending(true, a.second)
  }

  ghost predicate TreeStands(client: Client, l: Locals, commitment: Transaction, cosigners: set<Key>) {
    && l.vtxo.Some? && l.expiry.Some? && client.builds(l.vtxo.value)
    && exists leaf :: VtxoTree(client.rules, l.vtxo.value, commitment, l.expiry.value, cosigners, leaf)
  }

  /** The error an event ends the join with, if any; the guards behind each step are not among them. */
  ghost function Failure(client: Client, g: Stage, a: Arrival): Option<JoinError> {
    match a.event
    case Idle => None
    case BatchStarted(_, _, expiry, now) =>
      if !g.step.Start? || !Starts(client, a.event) then None
      else if !(expiry.Time? && 0 < client.inputExpiresAt - now <= 512 * expiry.units) then Some(ExpiryTooShort)
      else Sending(true, a.first)
    case TreeTx(id, kind, _) =>
      if !(g.step.Started? || g.step.Signing?) || g.batch != Some(id) then None
      else if Taken(g.l, kind).None? then Some(UnexpectedChunk)
      else if |Taken(g.l, kind).value| >= MAX_BATCH_GRAPH_NODES then Some(TooManyChunks)
      else None
    case TreeSignature(id, kind, txid, _) =>
      if g.step.Signing? && g.batch == Some(id) && kind == Vtxo && txid !in TreeNodes(g.l) then Some(UnknownNode) else None
    case SigningStarted(id, cosigners, commitment) =>
      if !g.step.Started? || g.batch != Some(id) then None
      else if client.rules.cosigner !in cosigners then Some(NotACosigner)
      else if !TreeStands(client, g.l, commitment, cosigners) then Some(InvalidTree)
      else Sending(a.prepares, a.first)
    case TreeNonces(id, txid, nonces) =>
      if !g.step.Signing? || g.batch != Some(id) || g.signed || client.rules.cosigner !in nonces then None
      else if txid !in TreeNodes(g.l) then Some(UnknownNode)
      else if txid in g.l.nonces then Some(DuplicateNonces)
      else if |g.l.nonces| + 1 == |TreeNodes(g.l)| then Sending(a.prepares, a.first)
      else None
    case Finalization(id, commitment) =>
      if !g.step.Signing? || g.batch != Some(id) || !g.signed then None
      else if g.l.commitment != Some(commitment) then Some(ChangedCommitment)
      else if !(g.l.graph.Some? && TreeSigned(client, g.l.graph.value, commitment, g.l.signatures)) then Some(Unsigned)
      else if !(g.l.connectors.Some? && ConnectorTree(client.rules, g.l.connectors.value, commitment)) then Some(InvalidConnectors)
      else Forfeiting(client, g.l.connectors.value, a)
    case Finalized(id, commitment) =>
      if g.step.Submitted? && g.batch == Some(id) && g.expected != Some(commitment) then Some(ForeignCommitment) else None
    case Failed(id) => if g.batch == Some(id) then Some(BatchAborted) else None
  }

  // ----- the handlers -----

  method OnBatchStarted(client: Client, arrivals: seq<Arrival>, i: nat, progress: BatchProgress, l: Locals, ghost s: Script)
    returns (l': Locals, error: Option<JoinError>, ghost s': Script)
    requires i < |arrivals| && arrivals[i].event.BatchStarted? && Knows(client, arrivals, i, progress, l, s)
    modifies progress
    ensures error == Failure(client, old(StageOf(progress, l)), arrivals[i])
    ensures Lawful(client, arrivals, l'.log, s')
    ensures error.None? ==> Knows(client, arrivals, i + 1, progress, l', s')
    ensures error.None? ==> progress.step == if old(progress.step) == Start && Starts(client, arrivals[i].event) then Started else old(progress.step)
  {
    Follows(client, arrivals, i, progress, l, s);
    var e := arrivals[i].event;
    l', error, s' := l, None, s;
    if progress.step != Start || client.intentHash !in e.intentHashes {
      Ignoring(client, arrivals, i, progress, l, s);
      return;
    }
    if !Outlives(e.expiry, client.inputExpiresAt, e.now) { error := Some(ExpiryTooShort); return; }
    s' := s.(batch := e.id, start := i, expiry := e.expiry);
    l' := l.(log := [Confirm]);
    if !arrivals[i].first { error := Some(CallFailed); return; }
    var ok := progress.BeginBatch(e.id);
    if !ok { error := Some(OutOfOrder); return; }
    l' := l'.(expiry := Some(e.expiry));
  }

  /** A chunk of another batch, or outside its phases, changes nothing. */
  lemma ChunkSkipped(client: Client, arrivals: seq<Arrival>, i: nat, g: Stage, s: Script)
    requires Known(client, arrivals, i, g, s) && EventAt(arrivals, i).TreeTx?
    requires !((g.step.Started? || g.step.Signing?) && g.batch == Some(EventAt(arrivals, i).id))
    ensures Known(client, arrivals, i + 1, g, s)
  {
    hide Lawful;
  }

  /** A chunk of our batch joins those of its kind, and nothing else changes. */
  lemma ChunkTaken(client: Client, arrivals: seq<Arrival>, i: nat, g: Stage, l': Locals, s: Script)
    requires Known(client, arrivals, i, g, s) && EventAt(arrivals, i).TreeTx?
    requires (g.step.Started? || g.step.Signing?) && g.batch == Some(EventAt(arrivals, i).id)
    requires var e := EventAt(arrivals, i);
             && Taken(g.l, e.kind).Some?
             && var more := Some(Taken(g.l, e.kind).value + [e.chunk]);
                l' == if e.kind == Vtxo then g.l.(vtxo := more) else g.l.(connectors := more)
    ensures Known(client, arrivals, i + 1, g.(l := l'), s) && l'.log == g.l.log
  {
    hide Lawful;
  }

  method OnTreeTx(client: Client, arrivals: seq<Arrival>, i: nat, progress: BatchProgress, l: Locals, ghost s: Script)
    returns (l': Locals, error: Option<JoinError>)
    requires i < |arrivals| && arrivals[i].event.TreeTx? && Knows(client, arrivals, i, progress, l, s)
    ensures error == Failure(client, StageOf(progress, l), arrivals[i])
    ensures Lawful(client, arrivals, l'.log, s)
    ensures error.None? ==> Knows(client, arrivals, i + 1, progress, l', s)
  {
    hide Known, Lawful, Awaits;
    Follows(client, arrivals, i, progress, l, s);
    var e := arrivals[i].event;
    l', error := l, None;
    StillAwaits(client, arrivals, i, StageOf(progress, l), StageOf(progress, l), s);
    if !progress.AcceptsChunk(e.id) {
      ChunkSkipped(client, arrivals, i, StageOf(progress, l), s);
      return;
    }
    var chunks := if e.kind == Vtxo then l.vtxo else l.connectors;
    if chunks.None? { error := Some(UnexpectedChunk); return; }
    if |chunks.value| >= MAX_BATCH_GRAPH_NODES { error := Some(TooManyChunks); return; }
    var more := Some(chunks.value + [e.chunk]);
    l' := if e.kind == Vtxo then l.(vtxo := more) else l.(connectors := more);
    ChunkTaken(client, arrivals, i, StageOf(progress, l), l', s);
    StillAwaits(client, arrivals, i, StageOf(progress, l), StageOf(progress, l'), s);
  }

  method OnTreeSignature(client: Client, arrivals: seq<Arrival>, i: nat, progress: BatchProgress, l: Locals, ghost s: Script)
    returns (l': Locals, error: Option<JoinError>)
    requires i < |arrivals| && arrivals[i].event.TreeSignature? && Knows(client, arrivals, i, progress, l, s)
    ensures error == Failure(client, StageOf(progress, l), arrivals[i])
    ensures Lawful(client, arrivals, l'.log, s)
    ensures error.None? ==> Knows(client, arrivals, i + 1, progress, l', s)
    ensures error.None? ==>
              var e := arrivals[i].event;
              var ours := progress.step == Signing && progress.Matches(e.id) && e.kind == Vtxo;
              l' == if ours then l.(signatures := l.signatures[e.txid := e.signature]) else l
  {
    hide Lawful, Awaits;
    Follows(client, arrivals, i, progress, l, s);
    var e := arrivals[i].event;
    l', error := l, None;
    StillAwaits(client, arrivals, i, StageOf(progress, l), StageOf(progress, l), s);
    if progress.step != Signing || !progress.Matches(e.id) || e.kind != Vtxo { return; }
    SigningKnows(client, arrivals, i, StageOf(progress, l), s);
    if e.txid !in NodesOf(client, l) { error := Some(UnknownNode); return; }
    l' := l.(signatures := l.signatures[e.txid := e.signature]);
    StillAwaits(client, arrivals, i, StageOf(progress, l), StageOf(progress, l'), s);
  }

  method OnSigningStarted(client: Client, arrivals: seq<Arrival>, i: nat, progress: BatchProgress, l: Locals, ghost s: Script)
    returns (l': Locals, error: Option<JoinError>, ghost s': Script)
    requires i < |arrivals| && arrivals[i].event.SigningStarted? && Knows(client, arrivals, i, progress, l, s)
    modifies progress
    ensures error == Failure(client, old(StageOf(progress, l)), arrivals[i])
    ensures Lawful(client, arrivals, l'.log, s')
    ensures error.None? ==> Knows(client, arrivals, i + 1, progress, l', s')
    ensures error.None? ==>
              progress.step == if old(progress.step == Started && progress.Matches(arrivals[i].event.id)) then Signing else old(progress.step)
  {
    hide VtxoTree, ConnectorTree, Awaits;
    var e := arrivals[i].event;
    l', error, s' := l, None, s;
    if progress.step != Started || !progress.Matches(e.id) {
      Ignoring(client, arrivals, i, progress, l, s);
      return;
    }
    if client.rules.cosigner !in e.cosigners { error := Some(NotACosigner); return; }
    var chunks, expiry := l.vtxo.value, l.expiry.value;
    l' := l.(vtxo := None);
    var leaf := ValidateVtxoTree(client.rules, chunks, e.commitment, expiry, e.cosigners);
    if leaf.Err? { error := Some(InvalidTree); return; }
    if client.GraphNodes(chunks).None? { error := Some(InvalidTree); return; }
    if !arrivals[i].prepares { error := Some(NotPrepared); return; }
    s' := s.(signing := i, commitment := e.commitment, leaf := leaf.value);
    l' := l'.(log := l.log + [SubmitNonces(e.id)]);
    if !arrivals[i].first { error := Some(CallFailed); return; }
    SigningAwaits(client, arrivals, i, StageOf(progress, l), s, s');
    l' := l'.(graph := Some(chunks), commitment := Some(e.commitment), leaf := Some(leaf.value),
               signatures := Presigned(chunks));
    var ok := progress.MarkSigning(e.id);
    if !ok { error := Some(OutOfOrder); return; }
  }

  /** Signing begins with no nonces taken and none missed. */
  lemma SigningAwaits(client: Client, arrivals: seq<Arrival>, i: nat, g: Stage, s: Script, s': Script)
    requires Known(client, arrivals, i, g, s) && Awaits(client, arrivals, i, g, s) && g.step.Started?
    requires EventAt(arrivals, i).SigningStarted? && s'.batch == s.batch && s'.start == s.start && s'.signing == i
    ensures forall g': Stage :: g'.step.Signing? && !g'.signed && g'.l.nonces == map[] ==> Awaits(client, arrivals, i + 1, g', s')
  {
    hide Lawful;
  }

  method OnTreeNonces(client: Client, arrivals: seq<Arrival>, i: nat, progress: BatchProgress, l: Locals, ghost s: Script)
    returns (l': Locals, error: Option<JoinError>, ghost s': Script)
    requires i < |arrivals| && arrivals[i].event.TreeNonces? && Knows(client, arrivals, i, progress, l, s)
    modifies progress
    ensures error == Failure(client, old(StageOf(progress, l)), arrivals[i])
    ensures Lawful(client, arrivals, l'.log, s')
    ensures error.None? ==> Knows(client, arrivals, i + 1, progress, l', s')
    ensures error.None? ==>
              var e := arrivals[i].event;
              if old(progress.AcceptsNonces(e.id)) && client.rules.cosigner in e.nonces
              then l'.nonces == l.nonces[e.txid := e.nonces]
                   && progress.signaturesSubmitted == (|l.nonces| + 1 == |TreeNodes(l)|)
              else l' == l && progress.signaturesSubmitted == old(progress.signaturesSubmitted)
  {
    hide Known, Awaits, Lawful, MaySign, MayNonce, MayConfirm, MayForfeit, AllSigned, VtxoChunks, Collected, VtxoTree, ConnectorTree;
    Follows(client, arrivals, i, progress, l, s);
    var e := arrivals[i].event;
    l', error, s' := l, None, s;
    if !progress.AcceptsNonces(e.id) || client.rules.cosigner !in e.nonces {
      Ignoring(client, arrivals, i, progress, l, s);
      return;
    }
    var nonces, complete;
    SigningKnows(client, arrivals, i, StageOf(progress, l), s);
    nonces, complete, error := GatherNonces(client.GraphNodes(l.graph.value).value, l.nonces, e.txid, e.nonces);
    if error.Some? { return; }
    l' := l.(nonces := nonces);
    if !complete {
      NoncesKept(client, arrivals, i, StageOf(progress, l), s, nonces);
      return;
    }
    if !arrivals[i].prepares { error := Some(NotPrepared); return; }
    SignaturesLawful(client, arrivals, i, StageOf(progress, l), s, nonces);
    s' := s.(nonces := nonces, signed := i);
    l' := l'.(log := l.log + [SubmitSignatures(e.id, nonces)]);
    if !arrivals[i].first { error := Some(CallFailed); return; }
    var ok := progress.MarkSignatures(e.id);
    if !ok { error := Some(OutOfOrder); return; }
  }

  /** While signing. */
  lemma SigningKnows(client: Client, arrivals: seq<Arrival>, i: nat, g: Stage, s: Script)
    requires Known(client, arrivals, i, g, s) && g.step.Signing?
    ensures g.l.graph == Some(VtxoChunks(s, arrivals)) && client.GraphNodes(g.l.graph.value) == Some(TreeNodes(g.l))
    ensures NodesOf(client, g.l) == TreeNodes(g.l) && client.builds(g.l.graph.value)
    ensures g.l.signatures == Delivered(arrivals, s.batch, VtxoChunks(s, arrivals), s.signing + 1, i)
    ensures g.l.nonces.Keys <= TreeNodes(g.l) && forall n <- g.l.nonces :: client.rules.cosigner in g.l.nonces[n]
    ensures g.l.commitment == Some(s.commitment) && g.l.connectors.Some? && g.batch == Some(s.batch)
  {}

  /** One more node's nonces, still not all. */
  lemma NoncesKept(client: Client, arrivals: seq<Arrival>, i: nat, g: Stage, s: Script, nonces: map<Txid, map<Key, Nonce>>)
    requires Known(client, arrivals, i, g, s) && Awaits(client, arrivals, i, g, s) && g.step.Signing? && !g.signed
    requires EventAt(arrivals, i).TreeNonces? && nonces == g.l.nonces[EventAt(arrivals, i).txid := EventAt(arrivals, i).nonces]
    requires client.rules.cosigner in EventAt(arrivals, i).nonces && nonces.Keys <= TreeNodes(g.l)
    requires nonces.Keys != TreeNodes(g.l) && EventAt(arrivals, i).id == s.batch
    ensures var g' := g.(l := g.l.(nonces := nonces));
            Known(client, arrivals, i + 1, g', s) && Awaits(client, arrivals, i + 1, g', s)
  {
    hide MayConfirm, MayNonce, VtxoChunks;
  }

  /** Complete nonces extend a lawful log by the one signature message. */
  lemma SignaturesLawful(client: Client, arrivals: seq<Arrival>, i: nat, g: Stage, s: Script, nonces: map<Txid, map<Key, Nonce>>)
    requires Known(client, arrivals, i, g, s) && Awaits(client, arrivals, i, g, s) && g.step.Signing? && !g.signed
    requires EventAt(arrivals, i).TreeNonces?
    requires nonces.Keys == Nodes(VtxoChunks(s, arrivals)).Keys && forall n <- nonces :: client.rules.cosigner in nonces[n]
    requires EventAt(arrivals, i).id == s.batch && nonces == g.l.nonces[EventAt(arrivals, i).txid := EventAt(arrivals, i).nonces]
    requires client.rules.cosigner in EventAt(arrivals, i).nonces
    ensures var s' := s.(nonces := nonces, signed := i);
            var g' := g.(signed := true, l := g.l.(nonces := nonces, log := g.l.log + [SubmitSignatures(s.batch, nonces)]));
            && Lawful(client, arrivals, g'.l.log, s')
            && Known(client, arrivals, i + 1, g', s') && Awaits(client, arrivals, i + 1, g', s')
  {
    hide VtxoTree, ConnectorTree;
  }

  /** One more node's nonces; once there are as many as nodes, none is missing. */
  method GatherNonces(nodes: set<Txid>, before: map<Txid, map<Key, Nonce>>, txid: Txid, received: map<Key, Nonce>)
    returns (nonces: map<Txid, map<Key, Nonce>>, complete: bool, error: Option<JoinError>)
    requires before.Keys <= nodes
    ensures error == if txid !in nodes then Some(UnknownNode) else if txid in before then Some(DuplicateNonces) else None
    ensures error.None? ==> nonces == before[txid := received] && nonces.Keys <= nodes
    ensures error.None? ==> (complete <==> |before| + 1 == |nodes|) && (complete <==> nonces.Keys == nodes)
  {
    nonces, complete, error := before, false, None;
    if txid !in nodes { error := Some(UnknownNode); return; }
    if txid in before { error := Some(DuplicateNonces); return; }
    nonces := before[txid := received];
    assert nonces.Keys == before.Keys + {txid};
    if |nonces| != |nodes| { return; }
    SameSize(nonces.Keys, nodes);
    if exists n <- nodes :: n !in nonces { error := Some(MissingNonce); return; }
    complete := true;
  }

  /** A fully signed tree and valid connectors extend a lawful log by the forfeits, and their merge by the last message. */
  lemma ForfeitsLawful(client: Client, arrivals: seq<Arrival>, i: nat, g: Stage, s: Script, answers: seq<Answer>)
    requires Known(client, arrivals, i, g, s) && Awaits(client, arrivals, i, g, s) && g.step.Signing? && g.signed
    requires EventAt(arrivals, i).Finalization? && EventAt(arrivals, i).id == s.batch && EventAt(arrivals, i).commitment == s.commitment
    requires TreeSigned(client, VtxoChunks(s, arrivals), s.commitment, g.l.signatures) && i < |arrivals| && answers == arrivals[i].answers
    requires g.l.connectors.Some? && ConnectorTree(client.rules, g.l.connectors.value, s.commitment)
    ensures var s' := s.(final := i, signatures := g.l.signatures, answers := answers);
            var released := g.l.log + [ReleaseForfeits(s.commitment, g.l.connectors.value)];
            && Lawful(client, arrivals, released, s')
            && forall merged :: Merges(client.signers, client.forfeits(g.l.connectors.value), answers, merged) ==>
                 var g' := Stage(Submitted, g.batch, true, Some(s.commitment.id),
                                 g.l.(connectors := None, log := released + [SubmitForfeits(merged)]));
                 && Lawful(client, arrivals, released + [SubmitForfeits(merged)], s')
                 && Known(client, arrivals, i + 1, g', s') && Awaits(client, arrivals, i + 1, g', s')
  {
    hide VtxoTree, ConnectorTree, TreeSigned, Merges, Nodes, Presigned;
  }

  method OnFinalization(client: Client, arrivals: seq<Arrival>, i: nat, progress: BatchProgress, l: Locals, ghost s: Script)
    returns (l': Locals, error: Option<JoinError>, ghost s': Script)
    requires i < |arrivals| && arrivals[i].event.Finalization? && Knows(client, arrivals, i, progress, l, s)
    modifies progress
    ensures error == Failure(client, old(StageOf(progress, l)), arrivals[i])
    ensures Lawful(client, arrivals, l'.log, s')
    ensures error.None? ==> Knows(client, arrivals, i + 1, progress, l', s')
    ensures error.None? ==>
              progress.step == if old(progress.AcceptsFinalization(arrivals[i].event.id)) then Submitted else old(progress.step)
  {
    hide Known, Awaits, Lawful, AllSigned, TreeSigned, VtxoTree, ConnectorTree, AllCompleted, AnswerTo, ById, Delivered, Heard, Nodes;
    Follows(client, arrivals, i, progress, l, s);
    var e := arrivals[i].event;
    l', error, s' := l, None, s;
    if !progress.AcceptsFinalization(e.id) {
      Ignoring(client, arrivals, i, progress, l, s);
      return;
    }
    SigningKnows(client, arrivals, i, StageOf(progress, l), s);
    var commitment, graph, connectors := l.commitment.value, l.graph.value, l.connectors.value;
    if e.commitment != commitment { error := Some(ChangedCommitment); return; }
    AllSignedIsTreeSigned(client, graph, commitment, l.signatures);
    if !AllSigned(client, graph, commitment, l.signatures) { error := Some(Unsigned); return; }
    l' := l.(connectors := None);
    var invalid := ValidateConnectorTree(client.rules, connectors, commitment);
    if invalid.Some? { error := Some(InvalidConnectors); return; }
    if !arrivals[i].prepares { error := Some(NotPrepared); return; }
    ForfeitsLawful(client, arrivals, i, StageOf(progress, l), s, arrivals[i].answers);
    s' := s.(final := i, signatures := l.signatures, answers := arrivals[i].answers);
    l' := l'.(log := l.log + [ReleaseForfeits(commitment, connectors)]);
    if !arrivals[i].first { error := Some(CallFailed); return; }
    var merged := CombineForfeits(client.signers, client.forfeits(connectors), arrivals[i].answers);
    if merged.Err? { error := Some(BadForfeits); return; }
    assert Merges(client.signers, client.forfeits(connectors), arrivals[i].answers, merged.value);
    l' := l'.(log := l'.log + [SubmitForfeits(merged.value)]);
    if !arrivals[i].second { error := Some(CallFailed); return; }
    var ok := progress.MarkSubmitted(e.id, commitment.id);
    if !ok { error := Some(OutOfOrder); return; }
  }

  // ----- the loop -----

  /** Where a join ended: before which event, in what state, along which script. */
  datatype End = End(at: nat, g: Stage, s: Script)

  /** The result is that of the first event that fails or settles the join, or of a stream that has none. */
  ghost predicate Ends(client: Client, arrivals: seq<Arrival>, r: Result<Outcome, JoinError>, log: seq<Message>, s: Script, end: End) {
    && end.at <= |arrivals|
    && Known(client, arrivals, end.at, end.g, end.s) && Awaits(client, arrivals, end.at, end.g, end.s)
    && (r == Err(StreamClosed) <==> end.at == |arrivals|)
    && (end.at == |arrivals| ==> log == end.g.l.log && s == end.s)
    && (r.Err? && end.at < |arrivals| ==> Failure(client, end.g, arrivals[end.at]) == Some(r.error))
    && (r.Ok? ==>
          && end.at < |arrivals| && end.g.step == Submitted && arrivals[end.at].event == Finalized(s.batch, s.commitment.id)
          && s == end.s && |log| == 5 && r.value == Outcome(s.commitment.id, s.leaf))
  }

  // ----- which signature counts -----

  /** Nothing for the node came from the stream between two events. */
  ghost predicate Undelivered(arrivals: seq<Arrival>, batch: BatchId, from: nat, till: nat, n: Txid) {
    forall k :: from <= k < till ==> !Delivers(arrivals, batch, k, n)
  }

  /**
   The signature of a received node at an event: the last one delivered for it since signing started, or if there
   was none, the one its chunk carried.
  */
  ghost predicate LastSignature(arrivals: seq<Arrival>, batch: BatchId, signing: nat, till: nat, c: Chunk, signature: Signature) {
    || (exists k :: signing < k < till && Delivers(arrivals, batch, k, c.tx.id) && EventAt(arrivals, k).signature == signature
                    && Undelivered(arrivals, batch, k + 1, till, c.tx.id))
    || (Undelivered(arrivals, batch, signing + 1, till, c.tx.id) && c.signature == Some(signature))
  }

  lemma {:induction false} DeliveredIsLast(arrivals: seq<Arrival>, batch: BatchId, chunks: seq<Chunk>, signing: nat, till: nat,
                                           c: Chunk, signature: Signature)
    requires DistinctIds(chunks) && c in chunks && signing < till
    ensures var all := Delivered(arrivals, batch, chunks, signing + 1, till);
            (c.tx.id in all && all[c.tx.id] == signature) <==> LastSignature(arrivals, batch, signing, till, c, signature)
    decreases till
  {
    hide Nodes;
    NodesIndex(chunks);
    if till > signing + 1 {
      DeliveredIsLast(arrivals, batch, chunks, signing, till - 1, c, signature);
      LastMovesOn(arrivals, batch, signing, till - 1, c, signature);
    }
  }

  /** One more event either delivers the node's signature or leaves it as it was. */
  lemma LastMovesOn(arrivals: seq<Arrival>, batch: BatchId, signing: nat, till: nat, c: Chunk, signature: Signature)
    requires signing < till
    ensures LastSignature(arrivals, batch, signing, till + 1, c, signature) <==>
              if Delivers(arrivals, batch, till, c.tx.id) then EventAt(arrivals, till).signature == signature
              else LastSignature(arrivals, batch, signing, till, c, signature)
  {
    hide Delivers;
    var n := c.tx.id;
    if Delivers(arrivals, batch, till, n) {
      var next := till + 1;
      assert Undelivered(arrivals, batch, next, next, n);
      forall k: nat | k <= till ensures !Undelivered(arrivals, batch, k, next, n) {}
    } else {
      forall k: nat ensures Undelivered(arrivals, batch, k, till + 1, n) <==> Undelivered(arrivals, batch, k, till, n) {}
    }
  }

  /** The node has no signature valid for the commitment when event `till` comes. */
  ghost predicate LacksSignature(client: Client, arrivals: seq<Arrival>, s: Script, till: nat, c: Chunk) {
    forall signature :: LastSignature(arrivals, s.batch, s.signing, till, c, signature) ==>
                          !client.signedNode(VtxoChunks(s, arrivals), s.commitment, c.tx.id, signature)
  }

  lemma SignedByLast(client: Client, arrivals: seq<Arrival>, s: Script, till: nat)
    requires DistinctIds(VtxoChunks(s, arrivals)) && s.signing < till
    ensures TreeSigned(client, VtxoChunks(s, arrivals), s.commitment,
                       Delivered(arrivals, s.batch, VtxoChunks(s, arrivals), s.signing + 1, till))
       <==> forall c <- VtxoChunks(s, arrivals) :: !LacksSignature(client, arrivals, s, till, c)
  {
    hide Nodes, Delivered, LastSignature, VtxoChunks, DistinctIds;
    var chunks := VtxoChunks(s, arrivals);
    var all := Delivered(arrivals, s.batch, chunks, s.signing + 1, till);
    NodesIndex(chunks);
    forall c, signature | c in chunks
      ensures (c.tx.id in all && all[c.tx.id] == signature) <==> LastSignature(arrivals, s.batch, s.signing, till, c, signature)
    {
      DeliveredIsLast(arrivals, s.batch, chunks, s.signing, till, c, signature);
    }
    forall c <- chunks
      ensures !LacksSignature(client, arrivals, s, till, c) <==>
                c.tx.id in all && client.signedNode(chunks, s.commitment, c.tx.id, all[c.tx.id])
    {
      if c.tx.id in all { assert LastSignature(arrivals, s.batch, s.signing, till, c, all[c.tx.id]); }
    }
    if forall c <- chunks :: !LacksSignature(client, arrivals, s, till, c) {
      forall n <- Nodes(chunks) ensures n in all && client.signedNode(chunks, s.commitment, n, all[n]) {
        assert Nodes(chunks)[n] in chunks;
      }
    }
  }

  /**
   A join fails for want of signatures exactly when the finalization of the very commitment signed for arrives after
   our partial signatures went out and some received node has no valid signature by then.
  */
  lemma UnsignedExactly(client: Client, arrivals: seq<Arrival>, r: Result<Outcome, JoinError>, log: seq<Message>, s: Script, end: End)
    requires Ends(client, arrivals, r, log, s, end)
    ensures r == Err(Unsigned) <==>
              && end.at < |arrivals| && end.g.step.Signing? && end.g.signed
              && arrivals[end.at].event == Finalization(end.s.batch, end.s.commitment)
              && exists c <- VtxoChunks(end.s, arrivals) :: LacksSignature(client, arrivals, end.s, end.at, c)
  {
    hide Lawful, Awaits, Delivered, Heard, LacksSignature, TreeSigned, VtxoChunks, Collected, TreeStands, Nodes,
         ConnectorTree, AllCompleted;
    if end.at < |arrivals| && end.g.step.Signing? {
      SigningKnows(client, arrivals, end.at, end.g, end.s);
      ChunksAreDistinct(client, arrivals, end.at, end.g, end.s);
      SignedByLast(client, arrivals, end.s, end.at);
    }
  }

  /**
   Before signing, a join gives up exactly when the batch that names our intent does not outlive the input, when its
   signing leaves us out, or when what the stream sent until then is no valid tree for the commitment announced.
  */
  lemma GivesUpBeforeSigning(client: Client, arrivals: seq<Arrival>, r: Result<Outcome, JoinError>, log: seq<Message>, s: Script, end: End)
    requires Ends(client, arrivals, r, log, s, end) && end.at < |arrivals|
    ensures var (i, e) := (end.at, arrivals[end.at].event);
            && (r == Err(ExpiryTooShort) <==>
                  && end.g.step.Start? && e.BatchStarted? && client.intentHash in e.intentHashes
                  && !(e.expiry.Time? && e.now < client.inputExpiresAt <= e.now + 512 * e.expiry.units))
            && (r == Err(NotACosigner) <==>
                  end.g.step.Started? && e.SigningStarted? && e.id == end.s.batch && client.rules.cosigner !in e.cosigners)
            && (r == Err(InvalidTree) <==>
                  && end.g.step.Started? && e.SigningStarted? && e.id == end.s.batch && client.rules.cosigner in e.cosigners
                  && var chunks := Collected(arrivals, end.s.batch, Vtxo, end.s.start, i);
                     !(client.builds(chunks)
                       && exists leaf :: VtxoTree(client.rules, chunks, e.commitment, end.s.expiry, e.cosigners, leaf)))
  {
    hide Lawful, Awaits, Delivered, Heard, TreeSigned, Collected, VtxoTree, ConnectorTree, AllCompleted, Nodes, TreeStands;
    if end.g.step.Started? && arrivals[end.at].event.SigningStarted? {
      StandsByArrivals(client, arrivals, end.at, end.g, end.s, arrivals[end.at].event.commitment, arrivals[end.at].event.cosigners);
    }
  }

  lemma StandsByArrivals(client: Client, arrivals: seq<Arrival>, i: nat, g: Stage, s: Script, commitment: Transaction, cosigners: set<Key>)
    requires Known(client, arrivals, i, g, s) && g.step.Started?
    ensures var chunks := Collected(arrivals, s.batch, Vtxo, s.start, i);
            TreeStands(client, g.l, commitment, cosigners) <==>
              client.builds(chunks) && exists leaf :: VtxoTree(client.rules, chunks, commitment, s.expiry, cosigners, leaf)
  {
    hide Lawful, Collected, VtxoTree;
  }

  /** Chunks are refused exactly when a tree chunk comes after signing began, or one more than 512 of a kind. */
  lemma RefusesChunks(client: Client, arrivals: seq<Arrival>, r: Result<Outcome, JoinError>, log: seq<Message>, s: Script, end: End)
    requires Ends(client, arrivals, r, log, s, end) && end.at < |arrivals|
    ensures var (i, e) := (end.at, arrivals[end.at].event);
            && (r == Err(UnexpectedChunk) <==> end.g.step.Signing? && e.TreeTx? && e.id == end.s.batch && e.kind == Vtxo)
            && (r == Err(TooManyChunks) <==>
                  && e.TreeTx? && e.id == end.s.batch
                  && (end.g.step.Started? || (end.g.step.Signing? && e.kind == Connector))
                  && |Collected(arrivals, end.s.batch, e.kind, end.s.start, i)| >= 512)
  {
    hide Lawful, Awaits, Delivered, Heard, TreeSigned, Collected, VtxoTree, ConnectorTree, AllCompleted, Nodes, TreeStands;
  }

  /** While signing, exactly nonces or signatures for no received node, or nonces heard before, end a join early. */
  lemma RefusesNonces(client: Client, arrivals: seq<Arrival>, r: Result<Outcome, JoinError>, log: seq<Message>, s: Script, end: End)
    requires Ends(client, arrivals, r, log, s, end) && end.at < |arrivals|
    ensures var (i, e, nodes) := (end.at, arrivals[end.at].event, Nodes(VtxoChunks(end.s, arrivals)));
            && (r == Err(UnknownNode) <==>
                  && end.g.step.Signing? && (e.TreeSignature? || e.TreeNonces?) && e.id == end.s.batch && e.txid !in nodes
                  && (e.TreeSignature? ==> e.kind == Vtxo)
                  && (e.TreeNonces? ==> client.rules.cosigner in e.nonces && !end.g.signed))
            && (r == Err(DuplicateNonces) <==>
                  && end.g.step.Signing? && !end.g.signed && Offers(client, end.s.batch, e) && e.txid in nodes
                  && exists k :: end.s.signing < k < i && Offers(client, end.s.batch, EventAt(arrivals, k)) && EventAt(arrivals, k).txid == e.txid)
  {
    hide Lawful, Awaits, Delivered, TreeSigned, Collected, VtxoTree, ConnectorTree, AllCompleted, Nodes, TreeStands, Heard, VtxoChunks;
    if end.g.step.Signing? && arrivals[end.at].event.TreeNonces? {
      SigningKnows(client, arrivals, end.at, end.g, end.s);
      HeardExactly(client.rules.cosigner, arrivals, end.s.batch, end.s.signing + 1, end.at, arrivals[end.at].event.txid);
    }
  }

  lemma {:induction false} HeardExactly(cosigner: Key, arrivals: seq<Arrival>, batch: BatchId, from: nat, till: nat, n: Txid)
    ensures n in Heard(cosigner, arrivals, batch, from, till) <==>
              exists k :: from <= k < till && EventAt(arrivals, k).TreeNonces? && EventAt(arrivals, k).id == batch
                          && cosigner in EventAt(arrivals, k).nonces && EventAt(arrivals, k).txid == n
    decreases till
  {
    if from < till { HeardExactly(cosigner, arrivals, batch, from, till - 1, n); }
  }

  /** A finalization fails exactly on another commitment, on connectors that do not hang off it, or on bad answers. */
  lemma RefusesFinalization(client: Client, arrivals: seq<Arrival>, r: Result<Outcome, JoinError>, log: seq<Message>, s: Script, end: End)
    requires Ends(client, arrivals, r, log, s, end) && end.at < |arrivals|
    ensures var (i, e, a) := (end.at, arrivals[end.at].event, arrivals[end.at]);
            var due := end.g.step.Signing? && end.g.signed && e.Finalization? && e.id == end.s.batch;
            var connectors := Collected(arrivals, end.s.batch, Connector, end.s.start, i);
            var signed := forall c <- VtxoChunks(end.s, arrivals) :: !LacksSignature(client, arrivals, end.s, i, c);
            var hung := ConnectorTree(client.rules, connectors, end.s.commitment);
            && (r == Err(ChangedCommitment) <==> due && e.commitment != end.s.commitment)
            && (r == Err(InvalidConnectors) <==> due && e.commitment == end.s.commitment && signed && !hung)
            && (r == Err(BadForfeits) <==>
                  && due && e.commitment == end.s.commitment && signed && hung && a.prepares && a.first
                  && !AllCompleted(client.signers, client.forfeits(connectors), a.answers))
  {
    hide Lawful, Awaits, Delivered, Heard, LacksSignature, TreeSigned, VtxoChunks, Collected, TreeStands, Nodes,
         ConnectorTree, AllCompleted;
    if end.g.step.Signing? {
      SigningKnows(client, arrivals, end.at, end.g, end.s);
      ChunksAreDistinct(client, arrivals, end.at, end.g, end.s);
      SignedByLast(client, arrivals, end.s, end.at);
    }
  }

  /** Only a foreign commitment after submission and the failure of the batch itself end a join otherwise. */
  lemma RefusesSettlement(client: Client, arrivals: seq<Arrival>, r: Result<Outcome, JoinError>, log: seq<Message>, s: Script, end: End)
    requires Ends(client, arrivals, r, log, s, end) && end.at < |arrivals|
    ensures var e := arrivals[end.at].event;
            && (r == Err(ForeignCommitment) <==>
                  end.g.step.Submitted? && e.Finalized? && e.id == end.s.batch && e.commitmentId != end.s.commitment.id)
            && (r == Err(BatchAborted) <==> !end.g.step.Start? && e == Failed(end.s.batch))
  {
    hide Lawful, Awaits, Delivered, Heard, TreeSigned, VtxoChunks, Collected, TreeStands, Nodes, ConnectorTree, AllCompleted;
  }

  lemma ChunksAreDistinct(client: Client, arrivals: seq<Arrival>, i: nat, g: Stage, s: Script)
    requires Known(client, arrivals, i, g, s) && g.step.Signing?
    ensures DistinctIds(VtxoChunks(s, arrivals)) && s.signing < i
  {}

  /** Some script explains what a join sent and reported. */
  ghost predicate Explained(client: Client, arrivals: seq<Arrival>, r: Result<Outcome, JoinError>, log: seq<Message>) {
    exists s, end :: Lawful(client, arrivals, log, s) && Ends(client, arrivals, r, log, s, end)
  }

  /**
   `join_registered_batch` over any stream: the messages sent always follow one lawful script. The join runs until
   the first event that fails, with exactly that event's error, or that settles the submitted batch, and reports
   the script's commitment and validated leaf; it reports a closed stream only after the last event, with no event
   it was waiting for missed. The progress guards behind each step and the missing-nonce error never fire.
  */
  method JoinRegistered(client: Client, arrivals: seq<Arrival>)
    returns (r: Result<Outcome, JoinError>, log: seq<Message>, ghost s: Script, ghost end: End)
    ensures Lawful(client, arrivals, log, s)
    ensures Ends(client, arrivals, r, log, s, end)
    ensures Explained(client, arrivals, r, log)
  {
    hide Known, Awaits, Lawful, VtxoTree, ConnectorTree, AllSigned, AllCompleted, TreeStands, NodesOf;
    var progress := new BatchProgress();
    var l := FRESH;
    s := Script("", 0, Disabled, 0, Transaction(0, 0, 0, [], []), OutPoint(0, 0), 0, map[], 0, map[], []);
    Begins(client, arrivals, s);
    for i := 0 to |arrivals|
      invariant Knows(client, arrivals, i, progress, l, s)
      invariant fresh(progress)
    {
      Follows(client, arrivals, i, progress, l, s);
      end := End(i, StageOf(progress, l), s);
      var error: Option<JoinError> := None;
      match arrivals[i].event {
        case Idle => Ignoring(client, arrivals, i, progress, l, s);
        case BatchStarted(_, _, _, _) => l, error, s := OnBatchStarted(client, arrivals, i, progress, l, s);
        case TreeTx(_, _, _) => l, error := OnTreeTx(client, arrivals, i, progress, l, s);
        case TreeSignature(_, _, _, _) => l, error := OnTreeSignature(client, arrivals, i, progress, l, s);
        case SigningStarted(_, _, _) => l, error, s := OnSigningStarted(client, arrivals, i, progress, l, s);
        case TreeNonces(_, _, _) => l, error, s := OnTreeNonces(client, arrivals, i, progress, l, s);
        case Finalization(_, _) => l, error, s := OnFinalization(client, arrivals, i, progress, l, s);
        case Finalized(id, commitment) =>
          var done := progress.Finalize(id, commitment);
          if done.Err? { return Err(done.error), l.log, s, end; }
          if done.value {
            Succeeds(client, arrivals, i, StageOf(progress, l), s, id, commitment);
            return Ok(Outcome(commitment, l.leaf.value)), l.log, s, end;
          }
          Ignoring(client, arrivals, i, progress, l, s);
        case Failed(id) =>
          if progress.Matches(id) { return Err(BatchAborted), l.log, s, end; }
          Ignoring(client, arrivals, i, progress, l, s);
      }
      if error.Some? { return Err(error.value), l.log, s, end; }
    }
    Follows(client, arrivals, |arrivals|, progress, l, s);
    end := End(|arrivals|, StageOf(progress, l), s);
    return Err(StreamClosed), l.log, s, end;
  }

  lemma Succeeds(client: Client, arrivals: seq<Arrival>, i: nat, g: Stage, s: Script, id: BatchId, commitment: Txid)
    requires Known(client, arrivals, i, g, s)
    requires g.step.Submitted? && g.batch == Some(id) && g.expected == Some(commitment)
    ensures |g.l.log| == 5 && id == s.batch && commitment == s.commitment.id && g.l.leaf == Some(s.leaf)
  {}

  // ----- registration and failure -----

  datatype Reply = Registered(intent: string) | AlreadyRegistered | Refused | NoReply

  datatype RegisterError = RegistrationRefused | RegistrationTimedOut | CleanupFailed

  /** The first reply settled it, or a conflicting intent was cleared and the second one did. */
  predicate Registers(replies: (Reply, Reply), deletionWorks: bool) {
    replies.0.Registered? || (Retries(replies, deletionWorks) && replies.1.Registered?)
  }

  predicate Retries(replies: (Reply, Reply), deletionWorks: bool) { replies.0.AlreadyRegistered? && deletionWorks }

  function IntentOf(replies: (Reply, Reply)): string {
    if replies.0.Registered? then replies.0.intent else if replies.1.Registered? then replies.1.intent else ""
  }

  /** `register_renewal_intent`: at most two attempts; a conflicting intent is deleted once in between. */
  method Register(replies: (Reply, Reply), deletionWorks: bool)
    returns (r: Result<string, RegisterError>, deletions: nat)
    ensures r.Ok? <==> Registers(replies, deletionWorks)
    ensures r.Ok? ==> r.value == IntentOf(replies)
    ensures r.Ok? <==> replies.0.Registered? || (replies.0.AlreadyRegistered? && deletionWorks && replies.1.Registered?)
    ensures r.Ok? ==> r.value == if replies.0.Registered? then replies.0.intent else replies.1.intent
    ensures r == Err(CleanupFailed) <==> replies.0.AlreadyRegistered? && !deletionWorks
    ensures r == Err(RegistrationTimedOut) <==> replies.0.NoReply? || (Retries(replies, deletionWorks) && replies.1.NoReply?)
    ensures deletions == (if replies.0.AlreadyRegistered? || replies.0.NoReply? then 1 else 0)
                         + (if Retries(replies, deletionWorks) && replies.1.NoReply? then 1 else 0)
  {
    deletions := 0;
    for attempt := 0 to 2
      invariant attempt <= 1
      invariant deletions == attempt
      invariant attempt == 1 ==> replies.0.AlreadyRegistered? && deletionWorks
    {
      var reply := if attempt == 0 then replies.0 else replies.1;
      match reply {
        case Registered(intent) => return Ok(intent), deletions;
        case AlreadyRegistered =>
          if attempt != 0 { return Err(RegistrationRefused), deletions; }
          deletions := deletions + 1;
          if !deletionWorks { return Err(CleanupFailed), deletions; }
        case Refused => return Err(RegistrationRefused), deletions;
        case NoReply => return Err(RegistrationTimedOut), deletions + 1;
      }
    }
    assert false;
  }

  datatype BatchError = NotRegistered(register: RegisterError) | JoinFailed(join: JoinError, released: bool)

  /** `join_batch_with_intent`: the intent is deleted after a failure exactly when no forfeit left the client. */
  method JoinBatch(client: Client, hash: string -> string, replies: (Reply, Reply), deletionWorks: bool, arrivals: seq<Arrival>)
    returns (r: Result<Outcome, BatchError>, log: seq<Message>, deleted: bool, ghost s: Script, ghost end: End)
    ensures r.Err? && r.error.NotRegistered? <==> !Registers(replies, deletionWorks)
    ensures r.Err? && r.error.NotRegistered? ==> log == [] && deleted == (replies.0.AlreadyRegistered? || replies.0.NoReply?)
    ensures r.Err? && r.error.JoinFailed? ==> r.error.released == Released(log) && deleted == !Released(log)
    ensures r.Ok? ==> !deleted
    ensures Registers(replies, deletionWorks) ==>
              var joining := client.(intentHash := hash(IntentOf(replies)));
              && Lawful(joining, arrivals, log, s)
              && Ends(joining, arrivals, if r.Ok? then Ok(r.value) else Err(r.error.join), log, s, end)
  {
    hide Lawful, Ends;
    var registered, deletions := Register(replies, deletionWorks);
    if registered.Err? {
      s := Script("", 0, Disabled, 0, Transaction(0, 0, 0, [], []), OutPoint(0, 0), 0, map[], 0, map[], []);
      end := End(0, Stage(Start, None, false, None, FRESH), s);
      return Err(NotRegistered(registered.error)), [], deletions > 0, s, end;
    }
    var result;
    result, log, s, end := JoinRegistered(client.(intentHash := hash(registered.value)), arrivals);
    if result.Ok? { return Ok(result.value), log, false, s, end; }
    return Err(JoinFailed(result.error, Released(log))), log, !Released(log), s, end;
  }

  /** A client that sent a forfeit did so for the tree it validated, fully signed, under one commitment. */
  lemma ReleaseIsJustified(client: Client, arrivals: seq<Arrival>, log: seq<Message>, s: Script)
    requires Lawful(client, arrivals, log, s)
    ensures Released(log) <==> |log| >= 4
    ensures Released(log) ==> MayNonce(client, s, arrivals) && MaySign(client, s, arrivals) && MayForfeit(client, s, arrivals)
    ensures |set i | 0 <= i < |log| && log[i].SubmitSignatures?| <= 1
    ensures |set i | 0 <= i < |log| && log[i].ReleaseForfeits?| <= 1
  {
    hide MayConfirm, MayNonce, MaySign, MayForfeit, Collected, Merges;
    assert (set i | 0 <= i < |log| && log[i].SubmitSignatures?) <= {2};
    assert (set i | 0 <= i < |log| && log[i].ReleaseForfeits?) <= {3};
    SubsetSize(set i | 0 <= i < |log| && log[i].SubmitSignatures?, {2});
    SubsetSize(set i | 0 <= i < |log| && log[i].ReleaseForfeits?, {3});
    if |log| >= 4 { assert log[3] in log; }
  }

  /** A node of the tree has its one set of nonces, ours among them, and a signature valid for the commitment. */
  predicate SignedFor(client: Client, s: Script, arrivals: seq<Arrival>, n: Txid) {
    && n in s.nonces && client.rules.cosigner in s.nonces[n]
    && n in s.signatures && client.signedNode(VtxoChunks(s, arrivals), s.commitment, n, s.signatures[n])
  }

  lemma NoncedAreDistinct(client: Client, s: Script, arrivals: seq<Arrival>)
    requires MayNonce(client, s, arrivals)
    ensures DistinctIds(VtxoChunks(s, arrivals))
  {}

  /** Every received node was signed for when a forfeit leaves, and validly so by the signature that counted then. */
  lemma ReleasedTreeIsSigned(client: Client, arrivals: seq<Arrival>, log: seq<Message>, s: Script, n: Txid)
    requires Lawful(client, arrivals, log, s) && Released(log) && n in Nodes(VtxoChunks(s, arrivals))
    ensures SignedFor(client, s, arrivals, n)
    ensures !LacksSignature(client, arrivals, s, s.final, Nodes(VtxoChunks(s, arrivals))[n])
  {
    hide VtxoTree, ConnectorTree, Nodes, Collected, Delivered, LacksSignature;
    ReleaseIsJustified(client, arrivals, log, s);
    NoncedAreDistinct(client, s, arrivals);
    NodesIndex(VtxoChunks(s, arrivals));
    SignedByLast(client, arrivals, s, s.final);
  }

  /**
   When a forfeit leaves, the one signed commitment pays for the renewed leaf, guards every output above it with
   the client's key, and funds one dust connector per forfeited input.
  */
  lemma ReleasedForfeitsAreFunded(client: Client, arrivals: seq<Arrival>, log: seq<Message>, s: Script) returns (path: seq<Txid>)
    requires Lawful(client, arrivals, log, s) && Released(log)
    ensures |s.commitment.outputs| >= 2
    ensures var (g, rules, batch) := (Nodes(VtxoChunks(s, arrivals)), client.rules, EventAt(arrivals, s.signing).cosigners);
            && Chain(g, path) && path[|path| - 1] == s.leaf.txid && s.leaf.vout == 0
            && (forall k :: 0 <= k < |path| ==> Guarded(rules, VtxoChunks(s, arrivals), s.commitment, s.expiry, batch, path[k]))
            && (forall k :: 0 <= k < |path| ==> SignedFor(client, s, arrivals, path[k]))
            && s.leaf.txid in g && g[s.leaf.txid].tx.outputs == rules.leafOutputs + [rules.anchor]
            && s.commitment.outputs[0].value >= Total(rules.leafOutputs) + rules.anchor.value
            && s.commitment.outputs[1].value >= rules.inputCount * rules.dust
  {
    hide VtxoTree, ConnectorTree, Nodes, Collected, Guarded, Chain, Delivered, Heard, LockedWithUs, StepIsLocked;
    ReleaseIsJustified(client, arrivals, log, s);
    ConnectorsAreFunded(client.rules, ConnectorChunks(s, arrivals), s.commitment);
    path := LeafIsGuarded(client.rules, VtxoChunks(s, arrivals), s.commitment, s.expiry, EventAt(arrivals, s.signing).cosigners, s.leaf);
    forall k | 0 <= k < |path| ensures SignedFor(client, s, arrivals, path[k]) {
      ChainStays(Nodes(VtxoChunks(s, arrivals)), path, k);
      ReleasedTreeIsSigned(client, arrivals, log, s, path[k]);
    }
  }
}
