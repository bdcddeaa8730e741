/**
 Validation of the flat transaction graph a batch stream delivers. Whatever is accepted is one tree hanging
 off the named commitment output, and it conserves that output's value.
*/
module BatchGraph {
  import opened Common

  const MAX_BATCH_GRAPH_NODES := 512
  const SEQUENCE_MAX := 0xFFFF_FFFF

  datatype TxIn = TxIn(previous: OutPoint, sequence: nat)
  datatype TxOut = TxOut(value: U64, script: Bytes)

  /** A transaction with its computed identifier. */
  datatype Transaction = Transaction(id: Txid, version: int, lockTime: nat, inputs: seq<TxIn>, outputs: seq<TxOut>)

  type Key = nat

  type Signature = nat

  /** One received node: nothing the stream declares about it is trusted. A cosigner field may fail to parse. */
  datatype Chunk = Chunk(
    declared: Option<Txid>, tx: Transaction, children: map<nat, Txid>, cosigners: seq<Option<Key>>, signature: Option<Signature>)

  datatype GraphError =
    | NodeCount | WrongId | DuplicateId | BadShape | BadAnchor | TooManyChildren
    | InvalidOutput | MultipleParents | WrongParentOutput | ValueLost
    | NotOneRoot | Revisited | Disconnected
    | WrongCommitmentOutput | MissingCommitmentOutput | RootValueLost | ValueOverflow

  // ----- what an accepted graph is -----

  type Graph = map<Txid, Chunk>

  predicate CanonicalShape(tx: Transaction) {
    && tx.version == 3 && tx.lockTime == 0
    && |tx.inputs| == 1 && tx.inputs[0].sequence == SEQUENCE_MAX
    && tx.outputs != []
  }

  function Count(outputs: seq<TxOut>, o: TxOut): nat { multiset(outputs)[o] }

  predicate CanonicalAnchor(tx: Transaction, anchor: TxOut)
    requires tx.outputs != []
  {
    tx.outputs[|tx.outputs| - 1] == anchor && Count(tx.outputs, anchor) == 1
  }

  /** Version 3, no lock time, one final input; the anchor stands last and nowhere else. */
  predicate Canonical(c: Chunk, anchor: TxOut) {
    && (c.declared.Some? ==> c.declared.value == c.tx.id)
    && c.tx.version == 3 && c.tx.lockTime == 0
    && |c.tx.inputs| == 1 && c.tx.inputs[0].sequence == 0xFFFF_FFFF
    && c.tx.outputs != [] && c.tx.outputs[|c.tx.outputs| - 1] == anchor
    && forall k :: 0 <= k < |c.tx.outputs| - 1 ==> c.tx.outputs[k] != anchor
  }

  lemma {:induction false} CountOfOthers(outputs: seq<TxOut>, anchor: TxOut)
    ensures Count(outputs, anchor) == 0 <==> forall k :: 0 <= k < |outputs| ==> outputs[k] != anchor
  {
    if exists k :: 0 <= k < |outputs| && outputs[k] == anchor {
      assert anchor in multiset(outputs);
    } else {
      assert anchor !in multiset(outputs);
    }
  }

  /** The two checks together are canonicity. */
  lemma CanonicalIsChecked(c: Chunk, anchor: TxOut)
    ensures Canonical(c, anchor) <==>
              && (c.declared.Some? ==> c.declared.value == c.tx.id)
              && CanonicalShape(c.tx) && CanonicalAnchor(c.tx, anchor)
  {
    if c.tx.outputs != [] {
      var last := |c.tx.outputs| - 1;
      CountOfOthers(c.tx.outputs[..last], anchor);
      assert c.tx.outputs == c.tx.outputs[..last] + [c.tx.outputs[last]];
      if c.tx.outputs[last] == anchor { assert Count(c.tx.outputs, anchor) == Count(c.tx.outputs[..last], anchor) + 1; }
    }
  }

  predicate DistinctIds(chunks: seq<Chunk>) {
    forall i, j :: 0 <= i < j < |chunks| ==> chunks[i].tx.id != chunks[j].tx.id
  }

  function Nodes(chunks: seq<Chunk>): Graph {
    if chunks == [] then map[]
    else
      var last := |chunks| - 1;
      Nodes(chunks[..last])[chunks[last].tx.id := chunks[last]]
  }

  /** Node `c` was received and is declared as the child of output `v` of received node `p`. */
  predicate Edge(g: Graph, p: Txid, v: nat, c: Txid) {
    p in g && v in g[p].children && g[p].children[v] == c && c in g
  }

  function Total(outputs: seq<TxOut>): nat {
    if outputs == [] then 0 else Total(outputs[..|outputs| - 1]) + outputs[|outputs| - 1].value
  }

  predicate SingleInput(g: Graph) { forall n <- g :: |g[n].tx.inputs| == 1 }

  /** Children sit on real outputs; a received child spends its output and passes its whole value on. */
  ghost predicate LinksKeepValue(g: Graph)
    requires SingleInput(g)
  {
    && (forall p, v :: p in g && v in g[p].children ==> v < |g[p].tx.outputs| - 1)
    && (forall p, v, c :: Edge(g, p, v, c) ==> LinkKeepsValue(g, p, v, c))
  }

  predicate LinkKeepsValue(g: Graph, p: Txid, v: nat, c: Txid)
    requires p in g && c in g && |g[c].tx.inputs| == 1
  {
    && v < |g[p].tx.outputs|
    && g[c].tx.inputs[0].previous == OutPoint(p, v)
    && Total(g[c].tx.outputs) == g[p].tx.outputs[v].value
  }

  ghost predicate UniqueParents(g: Graph) {
    forall p, v, q, w, c :: Edge(g, p, v, c) && Edge(g, q, w, c) ==> p == q && v == w
  }

  ghost predicate SoleRoot(g: Graph, r: Txid) {
    r in g && forall n <- g :: n == r <==> !HasParent(g, n)
  }

  ghost predicate HasParent(g: Graph, n: Txid) { exists p, v :: Edge(g, p, v, n) }

  /** Node `n` lies `depth` links below `r`. */
  ghost predicate Below(g: Graph, r: Txid, n: Txid, depth: nat)
    decreases depth
  {
    if depth == 0 then n == r
    else exists p, v :: Edge(g, p, v, n) && Below(g, r, p, depth - 1)
  }

  ghost predicate Reaches(g: Graph, r: Txid, n: Txid) { exists depth: nat :: Below(g, r, n, depth) }

  ghost predicate Spans(g: Graph, r: Txid) { forall n <- g :: Reaches(g, r, n) }

  predicate RootSpends(tx: Transaction, commitment: Transaction, vout: nat) {
    && |tx.inputs| == 1 && tx.inputs[0].previous == OutPoint(commitment.id, vout)
    && vout < |commitment.outputs| && Total(tx.outputs) == commitment.outputs[vout].value
  }

  ghost predicate ValueTree(chunks: seq<Chunk>, anchor: TxOut, commitment: Transaction, vout: nat) {
    && 1 <= |chunks| <= 512
    && (forall c <- chunks :: Canonical(c, anchor))
    && DistinctIds(chunks)
    && var g := Nodes(chunks);
       && SingleInput(g) && LinksKeepValue(g) && UniqueParents(g)
       && exists r :: SoleRoot(g, r) && Spans(g, r) && RootSpends(g[r].tx, commitment, vout)
  }

  lemma {:induction false} NodesIndex(chunks: seq<Chunk>)
    requires DistinctIds(chunks)
    ensures forall c <- chunks :: c.tx.id in Nodes(chunks) && Nodes(chunks)[c.tx.id] == c
    ensures forall n <- Nodes(chunks) :: Nodes(chunks)[n] in chunks && Nodes(chunks)[n].tx.id == n
    ensures |Nodes(chunks)| == |chunks|
  {
    if chunks != [] {
      var (earlier, c) := (chunks[..|chunks| - 1], chunks[|chunks| - 1]);
      NodesIndex(earlier);
      assert chunks == earlier + [c];
      forall e <- earlier ensures e.tx.id != c.tx.id {}
      NodesWithOneMore(Nodes(earlier), earlier, c);
    }
  }

  lemma NodesWithOneMore(g: Graph, earlier: seq<Chunk>, c: Chunk)
    requires c.tx.id !in g && |g| == |earlier|
    requires forall e <- earlier :: e.tx.id in g && g[e.tx.id] == e
    requires forall n <- g :: g[n] in earlier && g[n].tx.id == n
    ensures var more := g[c.tx.id := c];
            && (forall e <- earlier + [c] :: e.tx.id in more && more[e.tx.id] == e)
            && (forall n <- more :: more[n] in earlier + [c] && more[n].tx.id == n)
            && |more| == |earlier| + 1
  {
    assert g[c.tx.id := c].Keys == g.Keys + {c.tx.id};
  }

  // ----- it is a tree -----

  lemma DeeperHasParent(g: Graph, r: Txid, n: Txid, depth: nat)
    requires depth > 0 && Below(g, r, n, depth)
    ensures HasParent(g, n)
  {
    var p, v :| Edge(g, p, v, n) && Below(g, r, p, depth - 1);
  }

  /** Every node has one place in the tree: its depth is unique, so no node is its own ancestor. */
  lemma {:induction false} UniqueDepth(g: Graph, r: Txid, n: Txid, j: nat, k: nat)
    requires UniqueParents(g) && SoleRoot(g, r) && n in g && Below(g, r, n, j) && Below(g, r, n, k)
    ensures j == k
    decreases j
  {
    if j > 0 { DeeperHasParent(g, r, n, j); }
    if k > 0 { DeeperHasParent(g, r, n, k); }
    if j > 0 && k > 0 {
      var p, v :| Edge(g, p, v, n) && Below(g, r, p, j - 1);
      var q, w :| Edge(g, q, w, n) && Below(g, r, q, k - 1);
      UniqueDepth(g, r, p, j - 1, k - 1);
    }
  }

  /** Every received node but the root spends exactly one received parent output: the one its input names. */
  lemma OneParentOutput(chunks: seq<Chunk>, anchor: TxOut, commitment: Transaction, vout: nat, c: Chunk)
    requires ValueTree(chunks, anchor, commitment, vout) && c in chunks
    ensures var previous := c.tx.inputs[0].previous;
            RootSpends(c.tx, commitment, vout)
            || (exists p <- chunks :: p.tx.id == previous.txid && previous.vout < |p.tx.outputs| - 1
                                      && Total(c.tx.outputs) == p.tx.outputs[previous.vout].value)
  {
    var g := Nodes(chunks);
    NodesIndex(chunks);
    var r :| SoleRoot(g, r) && Spans(g, r) && RootSpends(g[r].tx, commitment, vout);
    if c.tx.id != r {
      var p, v :| Edge(g, p, v, c.tx.id);
      assert LinkKeepsValue(g, p, v, c.tx.id);
    }
  }

  // ----- it conserves value -----

  /** Value of the outputs no received child spends. */
  function Unspent(g: Graph, c: Chunk, n: nat): nat
    requires n <= |c.tx.outputs|
  {
    if n == 0 then 0
    else Unspent(g, c, n - 1)
         + (if n - 1 in c.children && c.children[n - 1] in g then 0 else c.tx.outputs[n - 1].value)
  }

  /** The received children on the first `n` outputs. */
  function Spenders(g: Graph, c: Chunk, n: nat): (s: seq<Txid>)
    ensures forall t <- s :: t in g
  {
    if n == 0 then []
    else Spenders(g, c, n - 1) + (if n - 1 in c.children && c.children[n - 1] in g then [c.children[n - 1]] else [])
  }

  function Weight(g: Graph, ids: seq<Txid>): nat
    requires forall t <- ids :: t in g
  {
    if ids == [] then 0 else Weight(g, ids[..|ids| - 1]) + Total(g[ids[|ids| - 1]].tx.outputs)
  }

  function AllUnspent(g: Graph, chunks: seq<Chunk>): nat {
    if chunks == [] then 0
    else
      var last := chunks[|chunks| - 1];
      AllUnspent(g, chunks[..|chunks| - 1]) + Unspent(g, last, |last.tx.outputs|)
  }

  function AllSpenders(g: Graph, chunks: seq<Chunk>): (s: seq<Txid>)
    ensures forall t <- s :: t in g
  {
    if chunks == [] then []
    else
      var last := chunks[|chunks| - 1];
      AllSpenders(g, chunks[..|chunks| - 1]) + Spenders(g, last, |last.tx.outputs|)
  }

  function Ids(chunks: seq<Chunk>): (s: seq<Txid>)
    ensures |s| == |chunks| && forall i :: 0 <= i < |s| ==> s[i] == chunks[i].tx.id
  {
    seq(|chunks|, i requires 0 <= i < |chunks| => chunks[i].tx.id)
  }

  lemma {:induction false} WeightOfConcat(g: Graph, a: seq<Txid>, b: seq<Txid>)
    requires (forall t <- a :: t in g) && (forall t <- b :: t in g)
    ensures Weight(g, a + b) == Weight(g, a) + Weight(g, b)
  {
    if b == [] {
      assert a + b == a;
    } else {
      var last := |b| - 1;
      WeightOfConcat(g, a, b[..last]);
      assert (a + b)[..|a + b| - 1] == a + b[..last];
    }
  }

  /** The outputs of a node are worth what stays unspent plus what its children carry. */
  lemma {:induction false} OutputsSplit(g: Graph, p: Txid, n: nat)
    requires SingleInput(g) && LinksKeepValue(g) && p in g && n <= |g[p].tx.outputs|
    ensures Total(g[p].tx.outputs[..n]) == Unspent(g, g[p], n) + Weight(g, Spenders(g, g[p], n))
  {
    if n > 0 {
      var c := g[p];
      OutputsSplit(g, p, n - 1);
      assert c.tx.outputs[..n][..n - 1] == c.tx.outputs[..n - 1];
      if n - 1 in c.children && c.children[n - 1] in g {
        var child := c.children[n - 1];
        assert Edge(g, p, n - 1, child);
        assert Spenders(g, c, n)[..|Spenders(g, c, n)| - 1] == Spenders(g, c, n - 1);
      } else {
        assert Spenders(g, c, n) == Spenders(g, c, n - 1);
      }
    }
  }

  lemma {:induction false} AllOutputsSplit(g: Graph, chunks: seq<Chunk>)
    requires SingleInput(g) && LinksKeepValue(g)
    requires forall c <- chunks :: c.tx.id in g && g[c.tx.id] == c
    ensures Weight(g, Ids(chunks)) == AllUnspent(g, chunks) + Weight(g, AllSpenders(g, chunks))
  {
    if chunks != [] {
      var k := |chunks| - 1;
      var last := chunks[k];
      AllOutputsSplit(g, chunks[..k]);
      OutputsSplit(g, last.tx.id, |last.tx.outputs|);
      assert last.tx.outputs[..|last.tx.outputs|] == last.tx.outputs;
      assert Ids(chunks)[..k] == Ids(chunks[..k]);
      WeightOfConcat(g, AllSpenders(g, chunks[..k]), Spenders(g, last, |last.tx.outputs|));
    }
  }

  predicate NoDuplicates(s: seq<Txid>) { forall i, j :: 0 <= i < j < |s| ==> s[i] != s[j] }

  lemma {:induction false} SpendersAre(g: Graph, p: Txid, n: nat)
    requires p in g && UniqueParents(g)
    ensures forall t :: t in Spenders(g, g[p], n) <==> exists v :: 0 <= v < n && Edge(g, p, v, t)
    ensures NoDuplicates(Spenders(g, g[p], n))
  {
    if n > 0 {
      SpendersAre(g, p, n - 1);
      var c := g[p];
      var before, all := Spenders(g, c, n - 1), Spenders(g, c, n);
      if n - 1 in c.children && c.children[n - 1] in g {
        var t := c.children[n - 1];
        assert Edge(g, p, n - 1, t) && all == before + [t];
        assert t !in before;
        Appended(before, t);
      }
    }
  }

  lemma Appended(s: seq<Txid>, t: Txid)
    requires NoDuplicates(s) && t !in s
    ensures NoDuplicates(s + [t]) && forall x :: x in s + [t] <==> x in s || x == t
  {}

  lemma Joined(a: seq<Txid>, b: seq<Txid>)
    requires NoDuplicates(a) && NoDuplicates(b) && forall t <- b :: t !in a
    ensures NoDuplicates(a + b)
  {
    var all := a + b;
    forall i, j | 0 <= i < j < |all| ensures all[i] != all[j] {
      if i < |a| <= j { assert all[i] in a && all[j] in b; }
    }
  }

  lemma {:induction false} AllSpendersAre(g: Graph, chunks: seq<Chunk>)
    requires UniqueParents(g) && DistinctIds(chunks) && SingleInput(g) && LinksKeepValue(g)
    requires forall c <- chunks :: c.tx.id in g && g[c.tx.id] == c
    ensures forall t :: t in AllSpenders(g, chunks) <==> exists c, v :: c in chunks && Edge(g, c.tx.id, v, t)
    ensures NoDuplicates(AllSpenders(g, chunks))
  {
    if chunks != [] {
      var k := |chunks| - 1;
      var last := chunks[k];
      var before, own := AllSpenders(g, chunks[..k]), Spenders(g, last, |last.tx.outputs|);
      AllSpendersAre(g, chunks[..k]);
      SpendersAre(g, last.tx.id, |last.tx.outputs|);
      forall t <- own ensures t !in before {
        var v :| Edge(g, last.tx.id, v, t);
      }
      Joined(before, own);
      assert chunks == chunks[..k] + [last];
      forall t ensures t in AllSpenders(g, chunks) <==> exists c, v :: c in chunks && Edge(g, c.tx.id, v, t) {
        if c, v: nat :| c in chunks && Edge(g, c.tx.id, v, t) {
          if c == last { assert v < |last.tx.outputs|; assert t in own; }
          else { assert c in chunks[..k] && Edge(g, c.tx.id, v, t); }
        }
      }
    }
  }

  /** The weight of distinct nodes depends only on which they are. */
  lemma {:induction false} WeightOfSameNodes(g: Graph, a: seq<Txid>, b: seq<Txid>)
    requires (forall t <- a :: t in g) && (forall t <- b :: t in g) && NoDuplicates(a) && NoDuplicates(b)
    requires forall t :: t in a <==> t in b
    ensures Weight(g, a) == Weight(g, b)
    decreases |a|
  {
    hide NoDuplicates, Total;
    HasMember(b);
    if a != [] {
      var last := a[|a| - 1];
      assert last in a;
      var i :| 0 <= i < |b| && b[i] == last;
      Removed(a, |a| - 1);
      Removed(b, i);
      assert a[..|a| - 1] + a[|a|..] == a[..|a| - 1];
      WeightOfSameNodes(g, a[..|a| - 1], b[..i] + b[i + 1..]);
      WeightWithout(g, b, i);
    }
  }

  lemma WeightWithout(g: Graph, s: seq<Txid>, i: nat)
    requires (forall t <- s :: t in g) && i < |s|
    ensures Weight(g, s) == Weight(g, s[..i] + s[i + 1..]) + Total(g[s[i]].tx.outputs)
  {
    hide Total;
    var before, after := s[..i], s[i + 1..];
    WeightOfConcat(g, before, after);
    WeightOfConcat(g, before + [s[i]], after);
    assert s == before + [s[i]] + after;
    assert (before + [s[i]])[..i] == before;
  }

  lemma HasMember(s: seq<Txid>)
    ensures s == [] || exists t :: t in s
  {
    if s != [] { assert s[0] in s; }
  }

  lemma Removed(s: seq<Txid>, i: nat)
    requires NoDuplicates(s) && i < |s|
    ensures var rest := s[..i] + s[i + 1..];
            NoDuplicates(rest) && forall t :: t in rest <==> t in s && t != s[i]
  {
    var rest := s[..i] + s[i + 1..];
    forall t ensures t in rest <==> t in s && t != s[i] {
      if t in s && t != s[i] {
        var j :| 0 <= j < |s| && s[j] == t;
        assert rest[if j < i then j else j - 1] == t;
      }
    }
  }

  /** The spenders are exactly the nodes other than the root. */
  lemma AllButRootSpend(g: Graph, chunks: seq<Chunk>, r: Txid)
    requires UniqueParents(g) && DistinctIds(chunks) && SingleInput(g) && LinksKeepValue(g) && SoleRoot(g, r)
    requires forall c <- chunks :: c.tx.id in g && g[c.tx.id] == c
    requires forall n <- g :: g[n] in chunks && g[n].tx.id == n
    ensures forall t :: t in AllSpenders(g, chunks) <==> t in g && t != r
    ensures NoDuplicates(AllSpenders(g, chunks))
  {
    hide AllSpenders, NoDuplicates, SingleInput, LinksKeepValue, UniqueParents;
    AllSpendersAre(g, chunks);
    forall t | t in g && t != r ensures t in AllSpenders(g, chunks) {
      var p, v :| Edge(g, p, v, t);
      assert g[p] in chunks && Edge(g, g[p].tx.id, v, t);
    }
    forall t | t in AllSpenders(g, chunks) ensures t in g && t != r {
      var c, v :| c in chunks && Edge(g, c.tx.id, v, t);
      assert HasParent(g, t);
    }
  }

  lemma IdsAreNodes(g: Graph, chunks: seq<Chunk>)
    requires DistinctIds(chunks)
    requires forall c <- chunks :: c.tx.id in g && g[c.tx.id] == c
    requires forall n <- g :: g[n] in chunks && g[n].tx.id == n
    ensures NoDuplicates(Ids(chunks)) && forall t :: t in Ids(chunks) <==> t in g
  {
    forall t | t in g ensures t in Ids(chunks) {
      var i :| 0 <= i < |chunks| && chunks[i] == g[t];
      assert Ids(chunks)[i] == t;
    }
  }

  lemma RootIsNode(g: Graph, r: Txid)
    requires SoleRoot(g, r)
    ensures r in g
  {}

  lemma WeightOfOneMore(g: Graph, s: seq<Txid>, t: Txid)
    requires (forall x <- s :: x in g) && t in g
    ensures Weight(g, s + [t]) == Weight(g, s) + Total(g[t].tx.outputs)
  {
    assert (s + [t])[..|s|] == s;
  }

  lemma RootCarriesAll(g: Graph, chunks: seq<Chunk>, r: Txid)
    requires UniqueParents(g) && DistinctIds(chunks) && SingleInput(g) && LinksKeepValue(g) && SoleRoot(g, r)
    requires forall c <- chunks :: c.tx.id in g && g[c.tx.id] == c
    requires forall n <- g :: g[n] in chunks && g[n].tx.id == n
    ensures AllUnspent(g, chunks) == Total(g[r].tx.outputs)
  {
    hide *;
    var spenders := AllSpenders(g, chunks);
    AllOutputsSplit(g, chunks);
    AllButRootSpend(g, chunks, r);
    IdsAreNodes(g, chunks);
    RootIsNode(g, r);
    Appended(spenders, r);
    WeightOfSameNodes(g, Ids(chunks), spenders + [r]);
    WeightOfOneMore(g, spenders, r);
  }

  /** The leaves and withheld branches of an accepted graph are worth exactly the commitment output. */
  lemma UnspentValueIsCommitted(chunks: seq<Chunk>, anchor: TxOut, commitment: Transaction, vout: nat)
    requires ValueTree(chunks, anchor, commitment, vout)
    ensures AllUnspent(Nodes(chunks), chunks) == commitment.outputs[vout].value
  {
    hide Nodes, Canonical, LinksKeepValue, SingleInput, UniqueParents, DistinctIds, AllUnspent, Spans;
    var g := Nodes(chunks);
    NodesIndex(chunks);
    var r :| SoleRoot(g, r) && Spans(g, r) && RootSpends(g[r].tx, commitment, vout);
    RootCarriesAll(g, chunks, r);
  }

  // ----- the validator -----

  lemma {:induction false} PrefixTotal(outputs: seq<TxOut>, n: nat)
    requires n <= |outputs|
    ensures Total(outputs[..n]) <= Total(outputs)
  {
    if n < |outputs| {
      PrefixTotal(outputs[..|outputs| - 1], n);
      assert outputs[..|outputs| - 1][..n] == outputs[..n];
    } else {
      assert outputs[..n] == outputs;
    }
  }

  /** `sum_outputs`: the checked 64-bit sum. */
  method SumOutputs(outputs: seq<TxOut>) returns (r: Result<U64, GraphError>)
    ensures r == if Total(outputs) <= MAX_U64 then Ok(Total(outputs)) else Err(ValueOverflow)
  {
    var sum: nat := 0;
    for i := 0 to |outputs|
      invariant sum == Total(outputs[..i]) <= MAX_U64
    {
      assert outputs[..i + 1][..i] == outputs[..i];
      PrefixTotal(outputs, i + 1);
      if sum + outputs[i].value > MAX_U64 { return Err(ValueOverflow); }
      sum := sum + outputs[i].value;
    }
    assert outputs[..|outputs|] == outputs;
    return Ok(sum);
  }

  predicate FewChildren(c: Chunk) { |c.children| <= |c.tx.outputs| - 1 }

  /** First pass: canonical nodes with distinct identifiers, indexed. */
  method IndexChunks(chunks: seq<Chunk>, anchor: TxOut) returns (r: Result<Graph, GraphError>)
    ensures r.Ok? <==> DistinctIds(chunks) && forall c <- chunks :: Canonical(c, anchor) && FewChildren(c)
    ensures r.Ok? ==> r.value == Nodes(chunks)
    ensures r.Err? ==> r.error in {WrongId, DuplicateId, BadShape, BadAnchor, TooManyChildren}
  {
    hide Canonical, CanonicalAnchor, DistinctIds, Nodes;
    var g: Graph := map[];
    NothingIndexed(chunks);
    for i := 0 to |chunks|
      invariant g == Nodes(chunks[..i]) && DistinctIds(chunks[..i])
      invariant forall c <- chunks[..i] :: Canonical(c, anchor) && FewChildren(c)
    {
      var c := chunks[i];
      assert c in chunks;
      OneMoreIndexed(chunks, i);
      CanonicalIsChecked(c, anchor);
      if c.declared.Some? && c.declared.value != c.tx.id { return Err(WrongId); }
      if c.tx.id in g { return Err(DuplicateId); }
      g := g[c.tx.id := c];
      if !CanonicalShape(c.tx) { return Err(BadShape); }
      if !CanonicalAnchor(c.tx, anchor) { return Err(BadAnchor); }
      if !FewChildren(c) { return Err(TooManyChildren); }
    }
    assert chunks[..|chunks|] == chunks;
    return Ok(g);
  }

  lemma NothingIndexed(chunks: seq<Chunk>)
    ensures Nodes(chunks[..0]) == map[] && DistinctIds(chunks[..0])
  {}

  lemma OneMoreIndexed(chunks: seq<Chunk>, i: nat)
    requires i < |chunks| && DistinctIds(chunks[..i])
    ensures Nodes(chunks[..i + 1]) == Nodes(chunks[..i])[chunks[i].tx.id := chunks[i]]
    ensures if chunks[i].tx.id in Nodes(chunks[..i]) then !DistinctIds(chunks) else DistinctIds(chunks[..i + 1])
  {
    hide DistinctIds;
    var earlier := chunks[..i];
    assert chunks[..i + 1] == earlier + [chunks[i]] && chunks[..i + 1][..i] == earlier;
    NodesIndex(earlier);
    if chunks[i].tx.id in Nodes(earlier) { IdRepeated(chunks, i, Nodes(earlier)[chunks[i].tx.id]); }
    else { IdIsNew(earlier, chunks[i]); }
  }

  lemma IdRepeated(chunks: seq<Chunk>, i: nat, c: Chunk)
    requires i < |chunks| && c in chunks[..i] && c.tx.id == chunks[i].tx.id
    ensures !DistinctIds(chunks)
  {
    var j :| 0 <= j < i && chunks[j] == c;
  }

  lemma IdIsNew(earlier: seq<Chunk>, c: Chunk)
    requires DistinctIds(earlier) && forall e <- earlier :: e.tx.id != c.tx.id
    ensures DistinctIds(earlier + [c])
  {}

  ghost predicate LinkOk(g: Graph, p: Txid, v: nat)
    requires SingleInput(g) && p in g && v in g[p].children
  {
    && v < |g[p].tx.outputs| - 1
    && (g[p].children[v] in g ==> LinkKeepsValue(g, p, v, g[p].children[v]))
  }

  lemma LinksOk(g: Graph)
    requires SingleInput(g)
    ensures LinksKeepValue(g) <==> forall p, v :: p in g && v in g[p].children ==> LinkOk(g, p, v)
  {
    if forall p, v :: p in g && v in g[p].children ==> LinkOk(g, p, v) {
      forall p, v, c | Edge(g, p, v, c) ensures LinkKeepsValue(g, p, v, c) { assert LinkOk(g, p, v); }
    } else {
      var p, v :| p in g && v in g[p].children && !LinkOk(g, p, v);
      if v < |g[p].tx.outputs| - 1 { assert Edge(g, p, v, g[p].children[v]); }
    }
  }

  /** One declared child. */
  method CheckLink(g: Graph, p: Txid, v: nat, referenced: set<Txid>) returns (r: Result<set<Txid>, GraphError>)
    requires SingleInput(g) && p in g && v in g[p].children
    ensures r.Ok? <==> LinkOk(g, p, v) && (g[p].children[v] in g ==> g[p].children[v] !in referenced)
    ensures r.Ok? ==> r.value == if g[p].children[v] in g then referenced + {g[p].children[v]} else referenced
    ensures r.Err? ==> r.error in {InvalidOutput, MultipleParents, WrongParentOutput, ValueOverflow, ValueLost}
  {
    var child := g[p].children[v];
    if v >= |g[p].tx.outputs| - 1 { return Err(InvalidOutput); }
    if child !in g { return Ok(referenced); }
    if child in referenced { return Err(MultipleParents); }
    if g[child].tx.inputs[0].previous != OutPoint(p, v) { return Err(WrongParentOutput); }
    var sum := SumOutputs(g[child].tx.outputs);
    if sum.Err? { return Err(sum.error); }
    if sum.value != g[p].tx.outputs[v].value { return Err(ValueLost); }
    return Ok(referenced + {child});
  }

  type Slot = (Txid, nat)

  /** What has been established once the declared children in `done` were checked. */
  ghost predicate Checked(g: Graph, done: set<Slot>, referenced: set<Txid>)
    requires SingleInput(g)
  {
    && (forall d <- done :: d.0 in g && d.1 in g[d.0].children && LinkOk(g, d.0, d.1))
    && (forall c :: c in referenced <==> exists d <- done :: Edge(g, d.0, d.1, c))
    && (forall d <- done, e <- done, c :: Edge(g, d.0, d.1, c) && Edge(g, e.0, e.1, c) ==> d == e)
  }

  lemma CheckedOneMore(g: Graph, done: set<Slot>, referenced: set<Txid>, p: Txid, v: nat)
    requires SingleInput(g) && Checked(g, done, referenced) && p in g && v in g[p].children && LinkOk(g, p, v)
    requires g[p].children[v] in g ==> g[p].children[v] !in referenced
    ensures Checked(g, done + {(p, v)}, if g[p].children[v] in g then referenced + {g[p].children[v]} else referenced)
  {
    hide LinkOk;
    var child := g[p].children[v];
    var all := done + {(p, v)};
    var after := if child in g then referenced + {child} else referenced;
    forall c ensures c in after <==> exists d <- all :: Edge(g, d.0, d.1, c) {
      if c in referenced { var d :| d in done && Edge(g, d.0, d.1, c); assert d in all; }
      if c in after && c !in referenced { assert (p, v) in all && Edge(g, (p, v).0, (p, v).1, c); }
    }
  }

  lemma CheckedFails(g: Graph, done: set<Slot>, referenced: set<Txid>, p: Txid, v: nat)
    requires SingleInput(g) && Checked(g, done, referenced) && p in g && v in g[p].children && (p, v) !in done
    requires LinkOk(g, p, v) ==> g[p].children[v] in g && g[p].children[v] in referenced
    ensures !(LinksKeepValue(g) && UniqueParents(g))
  {
    LinksOk(g);
    if LinkOk(g, p, v) {
      var c := g[p].children[v];
      var d :| d in done && Edge(g, d.0, d.1, c);
      assert Edge(g, p, v, c);
    }
  }

  lemma CheckedAll(g: Graph, done: set<Slot>, referenced: set<Txid>)
    requires SingleInput(g) && Checked(g, done, referenced)
    requires forall p, v :: p in g && v in g[p].children ==> (p, v) in done
    ensures LinksKeepValue(g) && UniqueParents(g)
    ensures forall n :: n in referenced <==> HasParent(g, n)
  {
    LinksOk(g);
    forall p: Txid, v: nat, q: Txid, w: nat, c | Edge(g, p, v, c) && Edge(g, q, w, c) ensures p == q && v == w {
      assert (p, v) in done && (q, w) in done;
    }
    forall n ensures n in referenced <==> HasParent(g, n) {
      if HasParent(g, n) {
        var p: Txid, v: nat :| Edge(g, p, v, n);
        assert (p, v) in done && Edge(g, (p, v).0, (p, v).1, n);
      }
    }
  }

  /** The declared children of one node, in whatever order the map gives them. */
  method CheckChildren(g: Graph, p: Txid, before: set<Txid>, ghost earlier: set<Slot>)
    returns (r: Result<set<Txid>, GraphError>, ghost done: set<Slot>)
    requires SingleInput(g) && p in g && Checked(g, earlier, before) && forall v :: (p, v) !in earlier
    ensures r.Ok? ==> Checked(g, done, r.value) && done == earlier + OwnSlots(g, p)
    ensures r.Err? ==> !(LinksKeepValue(g) && UniqueParents(g))
    ensures r.Err? ==> r.error in {InvalidOutput, MultipleParents, WrongParentOutput, ValueOverflow, ValueLost}
  {
    hide LinkOk, LinksKeepValue, UniqueParents, Edge, Checked, SingleInput;
    var referenced := before;
    done := earlier;
    var left := g[p].children.Keys;
    while left != {}
      invariant left <= g[p].children.Keys
      invariant Checked(g, done, referenced)
      invariant forall d :: d in done <==> d in earlier || (d.0 == p && d.1 in g[p].children && d.1 !in left)
    {
      var v :| v in left;
      var next := CheckLink(g, p, v, referenced);
      if next.Err? {
        CheckedFails(g, done, referenced, p, v);
        return Err(next.error), done;
      }
      CheckedOneMore(g, done, referenced, p, v);
      referenced := next.value;
      done := done + {(p, v)};
      left := left - {v};
    }
    return Ok(referenced), done;
  }

  function OwnSlots(g: Graph, p: Txid): set<Slot>
    requires p in g
  {
    set v | v in g[p].children :: (p, v)
  }

  /** Second pass: every declared child of every node. */
  method CheckLinks(chunks: seq<Chunk>, g: Graph) returns (r: Result<set<Txid>, GraphError>)
    requires SingleInput(g) && forall c <- chunks :: c.tx.id in g && g[c.tx.id] == c
    requires forall n <- g :: g[n] in chunks && g[n].tx.id == n
    requires DistinctIds(chunks)
    ensures r.Ok? <==> LinksKeepValue(g) && UniqueParents(g)
    ensures r.Ok? ==> forall n :: n in r.value <==> HasParent(g, n)
    ensures r.Err? ==> r.error in {InvalidOutput, MultipleParents, WrongParentOutput, ValueOverflow, ValueLost}
  {
    hide LinkOk, LinksKeepValue, UniqueParents, Edge, Checked, HasParent, SingleInput;
    var referenced: set<Txid> := {};
    ghost var done: set<Slot> := {};
    CheckedNothing(g);
    for i := 0 to |chunks|
      invariant Checked(g, done, referenced)
      invariant forall d: Slot :: d in done <==> exists j :: 0 <= j < i && chunks[j].tx.id == d.0 && d.1 in chunks[j].children
    {
      var next;
      ghost var all;
      next, all := CheckChildren(g, chunks[i].tx.id, referenced, done);
      if next.Err? { return Err(next.error); }
      done := all;
      referenced := next.value;
    }
    forall p, v | p in g && v in g[p].children ensures (p, v) in done {
      var j :| 0 <= j < |chunks| && chunks[j] == g[p];
    }
    CheckedAll(g, done, referenced);
    return Ok(referenced);
  }

  lemma CheckedNothing(g: Graph)
    requires SingleInput(g)
    ensures Checked(g, {}, {})
  {}

  lemma OneElement(s: set<Txid>, a: Txid, b: Txid)
    requires |s| == 1 && a in s && b in s
    ensures a == b
  {
    assert |s - {a}| == 0;
  }

  /** The received nodes no received node declares, if there is exactly one. */
  method FindRoot(g: Graph, referenced: set<Txid>) returns (r: Option<Txid>)
    requires forall n :: n in referenced <==> HasParent(g, n)
    ensures r.Some? ==> SoleRoot(g, r.value)
    ensures r.None? ==> !exists x :: SoleRoot(g, x)
  {
    hide HasParent;
    var roots := set n | n in g && n !in referenced;
    forall x: Txid | SoleRoot(g, x) ensures roots == {x} {}
    if |roots| != 1 { return None; }
    var root :| root in roots;
    forall n <- g ensures n == root <==> !HasParent(g, n) {
      if n in roots { OneElement(roots, n, root); }
    }
    return Some(root);
  }

  /** The received children of one node, in whatever order the map gives them. */
  method ReceivedChildren(g: Graph, n: Txid) returns (kids: seq<Txid>)
    requires n in g && UniqueParents(g)
    ensures forall c :: c in kids <==> exists v :: Edge(g, n, v, c)
    ensures NoDuplicates(kids)
  {
    kids := [];
    var left := g[n].children.Keys;
    while left != {}
      invariant left <= g[n].children.Keys
      invariant NoDuplicates(kids)
      invariant forall c :: c in kids <==> exists v :: v !in left && Edge(g, n, v, c)
    {
      var v :| v in left;
      var child := g[n].children[v];
      if child in g {
        assert Edge(g, n, v, child) && child !in kids;
        Appended(kids, child);
        kids := kids + [child];
      }
      left := left - {v};
    }
  }

  /** The walk so far: nodes visited, and nodes seen but not visited yet. */
  ghost predicate Frontier(g: Graph, r: Txid, visited: set<Txid>, pending: seq<Txid>) {
    && r in visited + Set(pending)
    && NoDuplicates(pending) && visited !! Set(pending)
    && (forall n <- visited + Set(pending) :: n in g && Reaches(g, r, n) && (n == r || ParentIn(g, visited, n)))
    && (forall p, v, c :: p in visited && Edge(g, p, v, c) ==> c in visited + Set(pending))
  }

  function Set(s: seq<Txid>): set<Txid> { set t | t in s }

  ghost predicate ParentIn(g: Graph, visited: set<Txid>, n: Txid) { exists p, v :: p in visited && Edge(g, p, v, n) }

  /** With unique parents and a parentless root, a popped node and its children are all new. */
  lemma ChildrenAreNew(g: Graph, r: Txid, visited: set<Txid>, pending: seq<Txid>, n: Txid, c: Txid, v: nat)
    requires Frontier(g, r, visited, pending) && n in pending && Edge(g, n, v, c)
    requires UniqueParents(g) && SoleRoot(g, r)
    ensures c !in visited && c !in pending
  {
    assert HasParent(g, c);
    assert n !in visited by { assert n in Set(pending); }
    assert c in visited + Set(pending) ==> ParentIn(g, visited, c);
  }

  lemma ReachesChild(g: Graph, r: Txid, n: Txid, v: nat, c: Txid)
    requires Reaches(g, r, n) && Edge(g, n, v, c)
    ensures Reaches(g, r, c)
  {
    var depth: nat :| Below(g, r, n, depth);
    assert Below(g, r, c, depth + 1);
  }

  lemma FrontierAdvances(g: Graph, r: Txid, visited: set<Txid>, pending: seq<Txid>, rest: seq<Txid>, n: Txid, kids: seq<Txid>)
    requires Frontier(g, r, visited, pending) && pending == rest + [n]
    requires UniqueParents(g) && SoleRoot(g, r)
    requires NoDuplicates(kids) && forall c :: c in kids <==> exists v :: Edge(g, n, v, c)
    ensures n !in visited && Frontier(g, r, visited + {n}, rest + kids)
  {
    hide Reaches, SoleRoot, UniqueParents;
    assert n in Set(pending) && forall t :: t in pending <==> t in rest || t == n;
    forall c <- kids ensures c !in visited && c !in pending && Reaches(g, r, c) {
      var v :| Edge(g, n, v, c);
      ChildrenAreNew(g, r, visited, pending, n, c, v);
      ReachesChild(g, r, n, v, c);
    }
    Removed(pending, |rest|);
    assert pending[..|rest|] == rest && rest + pending[|rest| + 1..] == rest;
    Joined(rest, kids);
    var next, seen := visited + {n}, rest + kids;
    assert NoDuplicates(seen) && next !! Set(seen);
    forall t <- next + Set(seen) ensures t in g && Reaches(g, r, t) && (t == r || ParentIn(g, next, t)) {
      if t in kids {
        var v :| Edge(g, n, v, t);
        assert n in next;
      } else {
        assert t in visited + Set(pending);
        if t != r { var p, v :| p in visited && Edge(g, p, v, t); assert p in next; }
      }
    }
  }

  /** A closed set holding the root holds everything below it. */
  lemma {:induction false} ClosedHoldsBelow(g: Graph, r: Txid, visited: set<Txid>, n: Txid, depth: nat)
    requires r in visited && (forall p, v, c :: p in visited && Edge(g, p, v, c) ==> c in visited)
    requires Below(g, r, n, depth)
    ensures n in visited
    decreases depth
  {
    if depth > 0 {
      var p, v :| Edge(g, p, v, n) && Below(g, r, p, depth - 1);
      ClosedHoldsBelow(g, r, visited, p, depth - 1);
    }
  }

  lemma SameSize(a: set<Txid>, b: set<Txid>)
    requires a <= b && |a| == |b|
    ensures a == b
  {
    if x :| x in b && x !in a { assert a <= b - {x}; SubsetSize(a, b - {x}); }
  }

  /** The worklist walk. It never meets a node twice, so its cycle error cannot occur. */
  method Walk(g: Graph, root: Txid) returns (r: Result<set<Txid>, GraphError>)
    requires UniqueParents(g) && SoleRoot(g, root)
    ensures r.Ok? <==> Spans(g, root)
    ensures r.Err? ==> r.error == Disconnected
  {
    hide UniqueParents, SoleRoot, Frontier, Reaches;
    var visited: set<Txid> := {};
    var pending := [root];
    FrontierStarts(g, root);
    while pending != []
      invariant Frontier(g, root, visited, pending) && visited <= g.Keys
      decreases |g.Keys - visited|
    {
      var n, rest := pending[|pending| - 1], pending[..|pending| - 1];
      InGraph(g, root, visited, pending, n);
      if n in visited { return Err(Revisited); }
      var kids := ReceivedChildren(g, n);
      FrontierAdvances(g, root, visited, pending, rest, n, kids);
      assert g.Keys - (visited + {n}) < g.Keys - visited by { assert n in g.Keys - visited; }
      visited := visited + {n};
      pending := rest + kids;
    }
    WalkEnds(g, root, visited);
    if |visited| != |g| { return Err(Disconnected); }
    return Ok(visited);
  }

  lemma FrontierStarts(g: Graph, root: Txid)
    requires SoleRoot(g, root)
    ensures Frontier(g, root, {}, [root])
  {
    assert Below(g, root, root, 0);
  }

  lemma InGraph(g: Graph, root: Txid, visited: set<Txid>, pending: seq<Txid>, n: Txid)
    requires Frontier(g, root, visited, pending) && n in pending
    ensures n in g && n !in visited
  {
    assert n in Set(pending);
  }

  lemma WalkEnds(g: Graph, root: Txid, visited: set<Txid>)
    requires Frontier(g, root, visited, []) && visited <= g.Keys
    ensures |visited| == |g| <==> Spans(g, root)
  {
    assert visited + Set([]) == visited;
    forall n | n in g && Reaches(g, root, n) ensures n in visited {
      var depth: nat :| Below(g, root, n, depth);
      ClosedHoldsBelow(g, root, visited, n, depth);
    }
    if |visited| == |g.Keys| { SameSize(visited, g.Keys); }
    if Spans(g, root) { assert visited == g.Keys; }
  }

  /** If every child sits on a real output, there cannot be more children than such outputs. */
  lemma ChildrenFit(c: Chunk)
    requires c.tx.outputs != [] && forall v <- c.children :: v < |c.tx.outputs| - 1
    ensures FewChildren(c)
  {
    BoundedCount(c.children.Keys, |c.tx.outputs| - 1);
  }

  lemma {:induction false} BoundedCount(s: set<nat>, n: nat)
    requires forall v <- s :: v < n
    ensures |s| <= n
  {
    if n > 0 { BoundedCount(s - {n - 1}, n - 1); }
  }

  /** `validate_graph`: accepts exactly the value trees, and never reports a revisited node. */
  method ValidateGraph(chunks: seq<Chunk>, anchor: TxOut, commitment: Transaction, vout: nat)
    returns (r: Result<Graph, GraphError>)
    ensures r.Ok? <==> ValueTree(chunks, anchor, commitment, vout)
    ensures r.Ok? ==> r.value == Nodes(chunks)
    ensures r != Err(Revisited)
  {
    hide Canonical, LinksKeepValue, UniqueParents, SoleRoot, Spans, DistinctIds, FewChildren, Nodes, SingleInput, RootSpends;
    if |chunks| == 0 || |chunks| > MAX_BATCH_GRAPH_NODES { return Err(NodeCount); }
    var indexed := IndexChunks(chunks, anchor);
    FewInTree(chunks, anchor, commitment, vout);
    if indexed.Err? { return indexed; }
    var g := indexed.value;
    NodesIndex(chunks);
    CanonicalIsSingle(chunks, anchor);
    var links := CheckLinks(chunks, g);
    if links.Err? { return Err(links.error); }
    var root := FindRoot(g, links.value);
    if root.None? { return Err(NotOneRoot); }
    var walk := Walk(g, root.value);
    RootIsUnique(g, root.value);
    if walk.Err? { return Err(walk.error); }
    var fund := CheckRoot(g[root.value].tx, commitment, vout);
    if fund.Some? { return Err(fund.value); }
    return Ok(g);
  }

  lemma FewInTree(chunks: seq<Chunk>, anchor: TxOut, commitment: Transaction, vout: nat)
    ensures ValueTree(chunks, anchor, commitment, vout) ==> forall c <- chunks :: FewChildren(c)
  {
    if ValueTree(chunks, anchor, commitment, vout) {
      NodesIndex(chunks);
      forall c <- chunks ensures FewChildren(c) { ChildrenFit(c); }
    }
  }

  lemma CanonicalIsSingle(chunks: seq<Chunk>, anchor: TxOut)
    requires DistinctIds(chunks) && forall c <- chunks :: Canonical(c, anchor)
    ensures SingleInput(Nodes(chunks))
  {
    NodesIndex(chunks);
  }

  lemma RootIsUnique(g: Graph, root: Txid)
    requires SoleRoot(g, root)
    ensures root in g && forall x :: SoleRoot(g, x) ==> x == root
  {}

  /** The root must spend the named commitment output and pass its whole value on. */
  method CheckRoot(tx: Transaction, commitment: Transaction, vout: nat) returns (r: Option<GraphError>)
    requires |tx.inputs| == 1
    ensures r.None? <==> RootSpends(tx, commitment, vout)
    ensures r.Some? ==> r.value in {WrongCommitmentOutput, MissingCommitmentOutput, ValueOverflow, RootValueLost}
  {
    if tx.inputs[0].previous != OutPoint(commitment.id, vout) { return Some(WrongCommitmentOutput); }
    if vout >= |commitment.outputs| { return Some(MissingCommitmentOutput); }
    var sum := SumOutputs(tx.outputs);
    if sum.Err? { return Some(ValueOverflow); }
    if sum.value != commitment.outputs[vout].value { return Some(RootValueLost); }
    return None;
  }
}
