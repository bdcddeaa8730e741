/**
 The two trees of a batch beyond their shape: every node of the VTXO tree is locked to cosigners that include
 the client, one leaf is byte for byte the renewed state, and the connector tree holds one dust leaf per input.
*/
module BatchTrees {
  import opened Common
  import opened BatchGraph

  /** A relative lock: time in units of 512 seconds, blocks, or none. */
  datatype Expiry = Time(units: nat) | Blocks(count: nat) | Disabled

  /** What the client expects; the script of a tree output depends on its cosigners as a set, since they are sorted. */
  datatype Rules = Rules(
    anchor: TxOut, treeScript: (set<Key>, Expiry) -> Bytes, cosigner: Key,
    leafOutputs: seq<TxOut>, dust: U64, inputCount: nat)

  datatype TreeError =
    | InvalidGraph(graph: GraphError) | BadCosigner | DuplicateCosigner | NoCosigner | OmitsUs | NotOneOperator
    | InconsistentOperator | MissingParent | WrongLock | NotOneLeaf
    | NonCanonicalOutput | NonCanonicalLeaf | WrongLeafCount

  // ----- the VTXO tree -----

  /** The cosigner fields parse, without repetition, and there is at least one. */
  predicate Declared(fields: seq<Option<Key>>) {
    && fields != [] && (forall f <- fields :: f.Some?)
    && (forall i, j :: 0 <= i < j < |fields| ==> fields[i] != fields[j])
  }

  function KeysOf(fields: seq<Option<Key>>): set<Key> { set f | f in fields && f.Some? :: f.value }

  /** The output a node spends: of the commitment, or of a received node. */
  function Prevout(g: Graph, commitment: Transaction, tx: Transaction): Option<TxOut>
    requires |tx.inputs| > 0
  {
    var previous := tx.inputs[0].previous;
    if previous.txid == commitment.id then OutputAt(commitment, previous.vout)
    else if previous.txid in g then OutputAt(g[previous.txid].tx, previous.vout)
    else None
  }

  function OutputAt(tx: Transaction, vout: nat): Option<TxOut> {
    if vout < |tx.outputs| then Some(tx.outputs[vout]) else None
  }

  /** An output carries the script of these cosigners. */
  predicate Locks(rules: Rules, expiry: Expiry, outputs: seq<TxOut>, vout: nat, keys: set<Key>) {
    vout < |outputs| && outputs[vout].script == rules.treeScript(keys, expiry)
  }

  /** The node declares us and exactly one signer from outside the batch, and spends an output locked to just those. */
  predicate Cosigned(rules: Rules, g: Graph, commitment: Transaction, expiry: Expiry, batch: set<Key>, c: Chunk, operator: Key) {
    && Declared(c.cosigners) && |c.tx.inputs| > 0
    && rules.cosigner in KeysOf(c.cosigners) && KeysOf(c.cosigners) - batch == {operator}
    && var previous := c.tx.inputs[0].previous;
       if previous.txid == commitment.id then Locks(rules, expiry, commitment.outputs, previous.vout, KeysOf(c.cosigners))
       else previous.txid in g && Locks(rules, expiry, g[previous.txid].tx.outputs, previous.vout, KeysOf(c.cosigners))
  }

  /** The received node is a leaf that holds the renewed outputs byte for byte. */
  predicate Renews(rules: Rules, c: Chunk) { c.children == map[] && c.tx.outputs == rules.leafOutputs + [rules.anchor] }

  /** Exactly one received leaf has just the renewed outputs and the anchor. */
  predicate OnlyRenewal(rules: Rules, chunks: seq<Chunk>, i: nat) {
    && i < |chunks|
    && forall j :: 0 <= j < |chunks| ==>
         (j == i <==> chunks[j].children == map[] && chunks[j].tx.outputs == rules.leafOutputs + [rules.anchor])
  }

  ghost predicate VtxoTree(rules: Rules, chunks: seq<Chunk>, commitment: Transaction, expiry: Expiry, batch: set<Key>, leaf: OutPoint) {
    && ValueTree(chunks, rules.anchor, commitment, 0)
    && (exists operator :: AllCosigned(rules, chunks, commitment, expiry, batch, operator))
    && (exists i: nat :: OnlyRenewal(rules, chunks, i) && leaf == OutPoint(chunks[i].tx.id, 0))
  }

  predicate AllCosigned(rules: Rules, chunks: seq<Chunk>, commitment: Transaction, expiry: Expiry, batch: set<Key>, operator: Key) {
    forall c <- chunks :: Cosigned(rules, Nodes(chunks), commitment, expiry, batch, c, operator)
  }

  /** `vtxo_tree_cosigners`: the declared keys, if they are well formed. */
  method DeclaredCosigners(fields: seq<Option<Key>>) returns (r: Result<set<Key>, TreeError>)
    ensures r.Ok? <==> Declared(fields)
    ensures r.Ok? ==> r.value == KeysOf(fields)
    ensures r.Err? ==> r.error in {BadCosigner, DuplicateCosigner, NoCosigner}
  {
    var seen: set<Key> := {};
    for i := 0 to |fields|
      invariant seen == KeysOf(fields[..i])
      invariant forall f <- fields[..i] :: f.Some?
      invariant forall j, k :: 0 <= j < k < i ==> fields[j] != fields[k]
    {
      assert fields[..i + 1] == fields[..i] + [fields[i]];
      assert fields[i] in fields;
      if fields[i].None? { return Err(BadCosigner); }
      if fields[i].value in seen {
        assert fields[i] in fields[..i];
        return Err(DuplicateCosigner);
      }
      seen := seen + {fields[i].value};
    }
    assert fields[..|fields|] == fields;
    if fields == [] { return Err(NoCosigner); }
    return Ok(seen);
  }

  /** The checks on one node; the operator found is the node's only signer from outside the batch. */
  method CheckCosigners(rules: Rules, g: Graph, commitment: Transaction, expiry: Expiry, batch: set<Key>, c: Chunk, known: Option<Key>)
    returns (r: Result<Key, TreeError>)
    requires |c.tx.inputs| > 0
    ensures r.Ok? ==> (known.Some? ==> known.value == r.value) && Cosigned(rules, g, commitment, expiry, batch, c, r.value)
    ensures r.Err? ==> forall operator :: Cosigned(rules, g, commitment, expiry, batch, c, operator) ==> known.Some? && known.value != operator
    ensures r == Err(MissingParent) ==> Prevout(g, commitment, c.tx) == None
  {
    var declared := DeclaredCosigners(c.cosigners);
    if declared.Err? { return Err(declared.error); }
    if rules.cosigner !in declared.value { return Err(OmitsUs); }
    var extras := declared.value - batch;
    if |extras| != 1 { return Err(NotOneOperator); }
    var operator :| operator in extras;
    OnlyElement(extras, operator);
    if known.Some? && known.value != operator { return Err(InconsistentOperator); }
    var prevout := Prevout(g, commitment, c.tx);
    if prevout.None? { return Err(MissingParent); }
    if prevout.value.script != rules.treeScript(declared.value, expiry) { return Err(WrongLock); }
    return Ok(operator);
  }

  lemma OnlyElement(s: set<Key>, x: Key)
    requires |s| == 1 && x in s
    ensures s == {x}
  {
    assert |s - {x}| == 0;
  }

  /** `validate_vtxo_tree`; its missing-parent error needs a node that repeats the commitment's identifier. */
  method ValidateVtxoTree(rules: Rules, chunks: seq<Chunk>, commitment: Transaction, expiry: Expiry, batch: set<Key>)
    returns (r: Result<OutPoint, TreeError>)
    ensures r.Ok? <==> exists leaf :: VtxoTree(rules, chunks, commitment, expiry, batch, leaf)
    ensures r.Ok? ==> VtxoTree(rules, chunks, commitment, expiry, batch, r.value)
    ensures r == Err(MissingParent) ==> exists c <- chunks :: c.tx.id == commitment.id
  {
    hide ValueTree, Nodes, Cosigned, Renews;
    var graph := ValidateGraph(chunks, rules.anchor, commitment, 0);
    if graph.Err? { return Err(InvalidGraph(graph.error)); }
    var operator: Option<Key> := None;
    for i := 0 to |chunks|
      invariant operator.None? <==> i == 0
      invariant i > 0 ==> forall c <- chunks[..i] :: Cosigned(rules, Nodes(chunks), commitment, expiry, batch, c, operator.value)
    {
      HasInput(chunks, rules.anchor, commitment, 0, chunks[i]);
      var checked := CheckCosigners(rules, graph.value, commitment, expiry, batch, chunks[i], operator);
      if checked.Err? {
        if checked.error.MissingParent? { ParentsAreKnown(chunks, rules.anchor, commitment, 0, chunks[i]); }
        CheckFails(rules, chunks, commitment, expiry, batch, operator, i);
        return Err(checked.error);
      }
      operator := Some(checked.value);
      assert chunks[..i + 1] == chunks[..i] + [chunks[i]];
    }
    NotEmpty(chunks, rules.anchor, commitment, 0);
    assert chunks[..|chunks|] == chunks;
    assert AllCosigned(rules, chunks, commitment, expiry, batch, operator.value);
    var leaf := FindRenewal(rules, chunks);
    if leaf.None? { return Err(NotOneLeaf); }
    assert OnlyRenewal(rules, chunks, leaf.value);
    assert VtxoTree(rules, chunks, commitment, expiry, batch, OutPoint(chunks[leaf.value].tx.id, 0));
    return Ok(OutPoint(chunks[leaf.value].tx.id, 0));
  }

  lemma NotEmpty(chunks: seq<Chunk>, anchor: TxOut, commitment: Transaction, vout: nat)
    requires ValueTree(chunks, anchor, commitment, vout)
    ensures chunks != []
  {}

  lemma HasInput(chunks: seq<Chunk>, anchor: TxOut, commitment: Transaction, vout: nat, c: Chunk)
    requires ValueTree(chunks, anchor, commitment, vout) && c in chunks
    ensures |c.tx.inputs| == 1 && c.tx.outputs != []
  {}

  /** In a graph that was accepted, every node spends an output that can be looked up. */
  lemma ParentsAreKnown(chunks: seq<Chunk>, anchor: TxOut, commitment: Transaction, vout: nat, c: Chunk)
    requires ValueTree(chunks, anchor, commitment, vout) && c in chunks
    ensures |c.tx.inputs| == 1
    ensures Prevout(Nodes(chunks), commitment, c.tx).Some? || exists d <- chunks :: d.tx.id == commitment.id
  {
    hide Nodes, LinksKeepValue, SingleInput, UniqueParents, Spans;
    HasInput(chunks, anchor, commitment, vout, c);
    OneParentOutput(chunks, anchor, commitment, vout, c);
    NodesIndex(chunks);
  }

  /** A failed node rules out every operator, given the one the earlier nodes agree on. */
  lemma CheckFails(rules: Rules, chunks: seq<Chunk>, commitment: Transaction, expiry: Expiry, batch: set<Key>, known: Option<Key>, i: nat)
    requires i < |chunks| && (known.None? <==> i == 0)
    requires i > 0 ==> forall c <- chunks[..i] :: Cosigned(rules, Nodes(chunks), commitment, expiry, batch, c, known.value)
    requires forall operator :: Cosigned(rules, Nodes(chunks), commitment, expiry, batch, chunks[i], operator) ==>
                                  known.Some? && known.value != operator
    ensures forall operator :: !AllCosigned(rules, chunks, commitment, expiry, batch, operator)
  {
    hide Nodes, Prevout;
    forall operator ensures !AllCosigned(rules, chunks, commitment, expiry, batch, operator) {
      if AllCosigned(rules, chunks, commitment, expiry, batch, operator) {
        assert chunks[i] in chunks;
        if i > 0 {
          assert chunks[0] in chunks[..i];
          SameOperator(rules, Nodes(chunks), commitment, expiry, batch, chunks[0], operator, known.value);
        }
      }
    }
  }

  lemma SameOperator(rules: Rules, g: Graph, commitment: Transaction, expiry: Expiry, batch: set<Key>, c: Chunk, one: Key, other: Key)
    requires Cosigned(rules, g, commitment, expiry, batch, c, one) && Cosigned(rules, g, commitment, expiry, batch, c, other)
    ensures one == other
  {
    assert one in {other};
  }

  /** The only leaf that renews the state, if there is exactly one. */
  method FindRenewal(rules: Rules, chunks: seq<Chunk>) returns (leaf: Option<nat>)
    ensures leaf.Some? ==> OnlyRenewal(rules, chunks, leaf.value)
    ensures leaf.None? ==> forall i: nat :: !OnlyRenewal(rules, chunks, i)
  {
    leaf := None;
    var many := false;
    for i := 0 to |chunks|
      invariant leaf.Some? ==> leaf.value < i && Renews(rules, chunks[leaf.value])
      invariant leaf.None? ==> !many && forall j :: 0 <= j < i ==> !Renews(rules, chunks[j])
      invariant leaf.Some? && !many ==> forall j :: 0 <= j < i && j != leaf.value ==> !Renews(rules, chunks[j])
      invariant many ==> exists j, k :: 0 <= j < k < i && Renews(rules, chunks[j]) && Renews(rules, chunks[k])
    {
      if Renews(rules, chunks[i]) {
        if leaf.Some? { many := true; } else { leaf := Some(i); }
      }
    }
    if many {
      leaf := None;
      ghost var j, k :| 0 <= j < k < |chunks| && Renews(rules, chunks[j]) && Renews(rules, chunks[k]);
      forall i: nat ensures !OnlyRenewal(rules, chunks, i) { TwoRenewals(rules, chunks, j, k, i); }
    } else if leaf.None? {
      forall i: nat ensures !OnlyRenewal(rules, chunks, i) { NoRenewal(rules, chunks, i); }
    }
  }

  lemma NoRenewal(rules: Rules, chunks: seq<Chunk>, i: nat)
    requires forall j :: 0 <= j < |chunks| ==> !Renews(rules, chunks[j])
    ensures !OnlyRenewal(rules, chunks, i)
  {
    if i < |chunks| { assert !Renews(rules, chunks[i]); }
  }

  lemma TwoRenewals(rules: Rules, chunks: seq<Chunk>, j: nat, k: nat, i: nat)
    requires j < k < |chunks| && Renews(rules, chunks[j]) && Renews(rules, chunks[k])
    ensures !OnlyRenewal(rules, chunks, i)
  {}

  // ----- what the client's leaf rests on -----

  /** A way through received nodes, each spending an output of the one before. */
  ghost predicate Chain(g: Graph, path: seq<Txid>) {
    path != [] && path[0] in g && forall k :: 0 < k < |path| ==> Linked(g, path[k - 1], path[k])
  }

  ghost predicate Linked(g: Graph, p: Txid, c: Txid) { exists v :: Edge(g, p, v, c) }

  lemma {:induction false} ChainTo(g: Graph, r: Txid, n: Txid, depth: nat) returns (path: seq<Txid>)
    requires r in g && Below(g, r, n, depth)
    ensures Chain(g, path) && path[0] == r && path[|path| - 1] == n
    decreases depth
  {
    if depth == 0 {
      path := [n];
    } else {
      var p, v :| Edge(g, p, v, n) && Below(g, r, p, depth - 1);
      var before := ChainTo(g, r, p, depth - 1);
      path := before + [n];
      assert Linked(g, p, n);
      forall k | 0 < k < |path| ensures Linked(g, path[k - 1], path[k]) {
        if k < |before| { assert path[k] == before[k]; }
      }
    }
  }

  lemma {:induction false} ChainStays(g: Graph, path: seq<Txid>, k: nat)
    requires Chain(g, path) && k < |path|
    ensures path[k] in g
  {
    if k > 0 { assert Linked(g, path[k - 1], path[k]); }
  }

  lemma ChainStep(g: Graph, path: seq<Txid>, k: nat)
    requires Chain(g, path) && 0 < k < |path|
    ensures Linked(g, path[k - 1], path[k])
  {}

  // ----- every output of the tree is locked -----

  /** Output `vout` of a transaction carries the script of keys that include ours. */
  predicate LockedWithUs(rules: Rules, expiry: Expiry, outputs: seq<TxOut>, vout: nat, keys: set<Key>) {
    && vout < |outputs| && outputs[vout].script == rules.treeScript(keys, expiry)
    && rules.cosigner in keys
  }

  /**
   The very output a received child hangs on is locked to that child's declared keys, ours among them. Only below a
   node that repeats the commitment's identifier is the commitment's output of that index looked at instead.
  */
  lemma EdgeIsLocked(rules: Rules, chunks: seq<Chunk>, commitment: Transaction, expiry: Expiry, batch: set<Key>, leaf: OutPoint,
                     p: Txid, v: nat, c: Txid)
    requires VtxoTree(rules, chunks, commitment, expiry, batch, leaf) && Edge(Nodes(chunks), p, v, c)
    ensures var g := Nodes(chunks);
            LockedWithUs(rules, expiry, if p == commitment.id then commitment.outputs else g[p].tx.outputs, v, KeysOf(g[c].cosigners))
  {
    hide Nodes, Declared, Canonical, UniqueParents, Spans, SoleRoot;
    var g := Nodes(chunks);
    NodesIndex(chunks);
    assert g[c] in chunks;
    var operator :| AllCosigned(rules, chunks, commitment, expiry, batch, operator);
    assert LinkKeepsValue(g, p, v, c) && Cosigned(rules, g, commitment, expiry, batch, g[c], operator);
  }

  lemma RootNodeIsLocked(rules: Rules, g: Graph, commitment: Transaction, expiry: Expiry, batch: set<Key>, c: Chunk, operator: Key)
    requires Cosigned(rules, g, commitment, expiry, batch, c, operator) && RootSpends(c.tx, commitment, 0)
    ensures LockedWithUs(rules, expiry, commitment.outputs, 0, KeysOf(c.cosigners))
  {
    hide Declared;
  }

  lemma RootIsFunded(chunks: seq<Chunk>, anchor: TxOut, commitment: Transaction, r: Txid)
    requires ValueTree(chunks, anchor, commitment, 0) && SoleRoot(Nodes(chunks), r)
    ensures r in Nodes(chunks) && Nodes(chunks)[r] in chunks && RootSpends(Nodes(chunks)[r].tx, commitment, 0)
  {
    hide Nodes, Canonical, UniqueParents, LinksKeepValue, SingleInput, Spans;
    var g := Nodes(chunks);
    NodesIndex(chunks);
    var q :| SoleRoot(g, q) && Spans(g, q) && RootSpends(g[q].tx, commitment, 0);
    RootIsUnique(g, q);
  }

  /** The commitment output is locked to the keys of the tree's root. */
  lemma RootIsLocked(rules: Rules, chunks: seq<Chunk>, commitment: Transaction, expiry: Expiry, batch: set<Key>, leaf: OutPoint, r: Txid)
    requires VtxoTree(rules, chunks, commitment, expiry, batch, leaf) && SoleRoot(Nodes(chunks), r)
    ensures r in Nodes(chunks) && LockedWithUs(rules, expiry, commitment.outputs, 0, KeysOf(Nodes(chunks)[r].cosigners))
  {
    hide Nodes, ValueTree, SoleRoot, RootSpends, Cosigned, OnlyRenewal, LockedWithUs;
    RootIsFunded(chunks, rules.anchor, commitment, r);
    var operator :| AllCosigned(rules, chunks, commitment, expiry, batch, operator);
    RootNodeIsLocked(rules, Nodes(chunks), commitment, expiry, batch, Nodes(chunks)[r], operator);
  }

  /** An output that a received node spends, with that node's locking cosigners. */
  ghost predicate Guarded(rules: Rules, chunks: seq<Chunk>, commitment: Transaction, expiry: Expiry, batch: set<Key>, n: Txid) {
    exists c <- chunks :: c.tx.id == n && exists operator :: Cosigned(rules, Nodes(chunks), commitment, expiry, batch, c, operator)
  }

  /** One step of the way: some output of `p` that `c` hangs on is locked to the keys of `c`. */
  ghost predicate StepIsLocked(rules: Rules, g: Graph, commitment: Transaction, expiry: Expiry, p: Txid, c: Txid) {
    exists v :: Edge(g, p, v, c)
                && LockedWithUs(rules, expiry, if p == commitment.id then commitment.outputs else g[p].tx.outputs, v, KeysOf(g[c].cosigners))
  }

  lemma StepLocked(rules: Rules, chunks: seq<Chunk>, commitment: Transaction, expiry: Expiry, batch: set<Key>, leaf: OutPoint, p: Txid, c: Txid)
    requires VtxoTree(rules, chunks, commitment, expiry, batch, leaf) && Linked(Nodes(chunks), p, c)
    ensures StepIsLocked(rules, Nodes(chunks), commitment, expiry, p, c)
  {
    hide Nodes, VtxoTree, LockedWithUs;
    var v :| Edge(Nodes(chunks), p, v, c);
    EdgeIsLocked(rules, chunks, commitment, expiry, batch, leaf, p, v, c);
  }

  /**
   From the commitment down to the renewed leaf, every output on the way can be spent by its key path only with
   the client's own signature, and the commitment output pays for the whole leaf.
  */
  lemma LeafIsGuarded(rules: Rules, chunks: seq<Chunk>, commitment: Transaction, expiry: Expiry, batch: set<Key>, leaf: OutPoint)
    returns (path: seq<Txid>)
    requires VtxoTree(rules, chunks, commitment, expiry, batch, leaf)
    ensures Chain(Nodes(chunks), path) && path[|path| - 1] == leaf.txid && leaf.vout == 0
    ensures RootSpends(Nodes(chunks)[path[0]].tx, commitment, 0)
    ensures forall k :: 0 <= k < |path| ==> Guarded(rules, chunks, commitment, expiry, batch, path[k])
    ensures LockedWithUs(rules, expiry, commitment.outputs, 0, KeysOf(Nodes(chunks)[path[0]].cosigners))
    ensures forall k :: 0 < k < |path| ==> StepIsLocked(rules, Nodes(chunks), commitment, expiry, path[k - 1], path[k])
    ensures leaf.txid in Nodes(chunks) && Nodes(chunks)[leaf.txid].tx.outputs == rules.leafOutputs + [rules.anchor]
    ensures Total(rules.leafOutputs) + rules.anchor.value <= commitment.outputs[0].value
  {
    hide Nodes, Cosigned, LinksKeepValue, SingleInput, UniqueParents, Chain, AllUnspent, Unspent, Canonical, LockedWithUs, StepIsLocked;
    var g := Nodes(chunks);
    NodesIndex(chunks);
    var i: nat :| OnlyRenewal(rules, chunks, i) && leaf == OutPoint(chunks[i].tx.id, 0);
    var r :| SoleRoot(g, r) && Spans(g, r) && RootSpends(g[r].tx, commitment, 0);
    assert leaf.txid in g && Reaches(g, r, leaf.txid);
    var depth: nat :| Below(g, r, leaf.txid, depth);
    path := ChainTo(g, r, leaf.txid, depth);
    forall k | 0 <= k < |path| ensures Guarded(rules, chunks, commitment, expiry, batch, path[k]) {
      ChainStays(g, path, k);
      assert g[path[k]] in chunks;
    }
    RootIsLocked(rules, chunks, commitment, expiry, batch, leaf, r);
    forall k | 0 < k < |path| ensures StepIsLocked(rules, g, commitment, expiry, path[k - 1], path[k]) {
      ChainStep(g, path, k);
      StepLocked(rules, chunks, commitment, expiry, batch, leaf, path[k - 1], path[k]);
    }
    UnspentValueIsCommitted(chunks, rules.anchor, commitment, 0);
    UnspentOfLeaf(g, chunks[i], |chunks[i].tx.outputs|);
    PartOfAll(g, chunks, i);
    TotalWithLast(rules.leafOutputs, rules.anchor);
  }

  lemma TotalWithLast(outputs: seq<TxOut>, last: TxOut)
    ensures Total(outputs + [last]) == Total(outputs) + last.value
  {
    assert (outputs + [last])[..|outputs|] == outputs;
  }

  lemma {:induction false} UnspentOfLeaf(g: Graph, c: Chunk, n: nat)
    requires c.children == map[] && n <= |c.tx.outputs|
    ensures Unspent(g, c, n) == Total(c.tx.outputs[..n])
    ensures n == |c.tx.outputs| ==> Unspent(g, c, n) == Total(c.tx.outputs)
  {
    if n > 0 {
      UnspentOfLeaf(g, c, n - 1);
      assert c.tx.outputs[..n][..n - 1] == c.tx.outputs[..n - 1];
    }
    if n == |c.tx.outputs| { assert c.tx.outputs[..n] == c.tx.outputs; }
  }

  lemma {:induction false} PartOfAll(g: Graph, chunks: seq<Chunk>, i: nat)
    requires i < |chunks|
    ensures Unspent(g, chunks[i], |chunks[i].tx.outputs|) <= AllUnspent(g, chunks)
  {
    if i < |chunks| - 1 { PartOfAll(g, chunks[..|chunks| - 1], i); }
  }

  // ----- the connector tree -----

  predicate Taproot(script: Bytes) { |script| == 34 && script[0] == 0x51 && script[1] == 0x20 }

  predicate Spendable(o: TxOut) { o.value > 0 && Taproot(o.script) }

  predicate DustLeaf(rules: Rules, c: Chunk) {
    |c.tx.outputs| == 2 && c.tx.outputs[0].value == rules.dust && Taproot(c.tx.outputs[0].script)
  }

  /** A 34-byte script of version one with a 32-byte program. */
  predicate PaysTaproot(o: TxOut) { |o.script| == 34 && o.script[0] == 0x51 && o.script[1] == 0x20 }

  /** Every output but the anchor has value and a Taproot script; a leaf has one, of exactly one dust. */
  predicate Connects(rules: Rules, c: Chunk) {
    && c.tx.outputs != []
    && (forall k :: 0 <= k < |c.tx.outputs| - 1 ==> c.tx.outputs[k].value > 0 && PaysTaproot(c.tx.outputs[k]))
    && (c.children == map[] ==>
          |c.tx.outputs| == 2 && c.tx.outputs[0].value == rules.dust && PaysTaproot(c.tx.outputs[0]))
  }

  function LeafCount(chunks: seq<Chunk>): nat {
    if chunks == [] then 0
    else LeafCount(chunks[..|chunks| - 1]) + if chunks[|chunks| - 1].children == map[] then 1 else 0
  }

  ghost predicate ConnectorTree(rules: Rules, chunks: seq<Chunk>, commitment: Transaction) {
    && ValueTree(chunks, rules.anchor, commitment, 1)
    && (forall c <- chunks :: Connects(rules, c))
    && LeafCount(chunks) == rules.inputCount > 0
  }

  /** The checks on one connector node. */
  method CheckConnector(rules: Rules, c: Chunk) returns (error: Option<TreeError>)
    requires c.tx.outputs != []
    ensures error.None? <==> Connects(rules, c)
  {
    var last := |c.tx.outputs| - 1;
    for k := 0 to last
      invariant forall j :: 0 <= j < k ==> Spendable(c.tx.outputs[j])
    {
      if !Spendable(c.tx.outputs[k]) { return Some(NonCanonicalOutput); }
    }
    if c.children == map[] && !DustLeaf(rules, c) { return Some(NonCanonicalLeaf); }
    return None;
  }

  /** `validate_connector_tree`. */
  method ValidateConnectorTree(rules: Rules, chunks: seq<Chunk>, commitment: Transaction) returns (error: Option<TreeError>)
    ensures error.None? <==> ConnectorTree(rules, chunks, commitment)
  {
    hide ValueTree, Connects;
    var graph := ValidateGraph(chunks, rules.anchor, commitment, 1);
    if graph.Err? { return Some(InvalidGraph(graph.error)); }
    var leaves := 0;
    for i := 0 to |chunks|
      invariant leaves == LeafCount(chunks[..i])
      invariant forall c <- chunks[..i] :: Connects(rules, c)
    {
      assert chunks[..i + 1][..i] == chunks[..i] && chunks[i] in chunks;
      HasInput(chunks, rules.anchor, commitment, 1, chunks[i]);
      error := CheckConnector(rules, chunks[i]);
      if error.Some? { return error; }
      if chunks[i].children == map[] { leaves := leaves + 1; }
    }
    assert chunks[..|chunks|] == chunks;
    if rules.inputCount == 0 || leaves != rules.inputCount { return Some(WrongLeafCount); }
    return None;
  }

  /** Every spendable output of an inner node has a received child. */
  predicate Complete(g: Graph, c: Chunk) { c.children != map[] ==> AllSpent(g, c, |c.tx.outputs| - 1) }

  predicate AllSpent(g: Graph, c: Chunk, n: int) { forall k :: 0 <= k < n ==> k in c.children && c.children[k] in g }

  lemma {:induction false} NothingUnspent(g: Graph, c: Chunk, n: nat)
    requires n <= |c.tx.outputs| && forall k :: 0 <= k < n ==> c.tx.outputs[k].value > 0
    ensures Unspent(g, c, n) == 0 <==> AllSpent(g, c, n)
  {
    if n > 0 { NothingUnspent(g, c, n - 1); }
  }

  /** A connector node whose last output is its anchor, which no child spends. */
  predicate Anchored(rules: Rules, c: Chunk) {
    && Connects(rules, c) && c.tx.outputs[|c.tx.outputs| - 1] == rules.anchor
    && forall v <- c.children :: v < |c.tx.outputs| - 1
  }

  /** A leaf keeps its dust and anchor; an inner node keeps its anchor and whatever was withheld. */
  lemma NodeShare(rules: Rules, g: Graph, c: Chunk)
    requires Anchored(rules, c)
    ensures var share := (if c.children == map[] then rules.dust else 0) + rules.anchor.value;
            Unspent(g, c, |c.tx.outputs|) >= share
            && (Unspent(g, c, |c.tx.outputs|) == share <==> Complete(g, c))
  {
    var last := |c.tx.outputs| - 1;
    NothingUnspent(g, c, last);
    assert last !in c.children;
    if c.children == map[] { assert Unspent(g, c, 1) == rules.dust; }
  }

  /** A dust for every leaf and an anchor for every node. */
  function Share(rules: Rules, leaves: nat, nodes: nat): nat { leaves * rules.dust + nodes * rules.anchor.value }

  lemma {:induction false} AllShares(rules: Rules, g: Graph, chunks: seq<Chunk>)
    requires forall c <- chunks :: Anchored(rules, c)
    ensures var share := Share(rules, LeafCount(chunks), |chunks|);
            AllUnspent(g, chunks) >= share && (AllUnspent(g, chunks) == share <==> forall c <- chunks :: Complete(g, c))
  {
    hide Anchored, Complete, Unspent, Share;
    if chunks != [] {
      var (earlier, last) := (chunks[..|chunks| - 1], chunks[|chunks| - 1]);
      assert chunks == earlier + [last];
      AllShares(rules, g, earlier);
      NodeShare(rules, g, last);
      ShareGrows(rules, LeafCount(earlier), |earlier|);
    } else {
      ShareGrows(rules, 0, 0);
    }
  }

  lemma ShareGrows(rules: Rules, leaves: nat, nodes: nat)
    ensures Share(rules, 0, 0) == 0
    ensures Share(rules, leaves, nodes + 1) == Share(rules, leaves, nodes) + rules.anchor.value
    ensures Share(rules, leaves + 1, nodes + 1) == Share(rules, leaves, nodes) + rules.dust + rules.anchor.value
  {}

  /**
   The commitment's connector output pays at least one dust connector per input, and exactly that (besides the
   anchors) just when no branch of the connector tree was withheld.
  */
  lemma ConnectorsAreFunded(rules: Rules, chunks: seq<Chunk>, commitment: Transaction)
    requires ConnectorTree(rules, chunks, commitment)
    ensures |commitment.outputs| >= 2
    ensures var share := rules.inputCount * rules.dust + |chunks| * rules.anchor.value;
            && commitment.outputs[1].value >= share
            && (commitment.outputs[1].value == share <==> forall c <- chunks :: Complete(Nodes(chunks), c))
  {
    hide Nodes, AllUnspent, Connects, Complete, Spans, UniqueParents;
    UnspentValueIsCommitted(chunks, rules.anchor, commitment, 1);
    NodesIndex(chunks);
    AllShares(rules, Nodes(chunks), chunks);
  }
}
