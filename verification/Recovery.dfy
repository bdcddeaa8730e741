/**
 Recovery of a journaled transaction across crashes and lost responses, against a ledger that marks inputs
 spent and lists the transaction as pending once it accepts it.
*/
module Recovery {
  import opened Common

  type Signature = nat

  // ----- checking the operator's answer -----

  /** A checkpoint as the wallet compares it: its identifier, unsigned content and input count. */
  datatype Checkpoint = Checkpoint(id: Txid, content: nat, inputs: nat)

  datatype Signed = Signed(checkpoint: Checkpoint, signatures: Signature)

  datatype Answer = Answer(id: Txid, arkContent: nat, arkSigned: bool, checkpoints: seq<Signed>)

  /** Whether the server's signatures on a returned checkpoint verify against the expected one. */
  type Check = (Checkpoint, Signed) -> bool

  predicate Answers(verify: Check, e: Checkpoint, s: Signed) { s.checkpoint == e && verify(e, s) }

  predicate DistinctIds(returned: seq<Signed>) {
    forall i, j :: 0 <= i < j < |returned| ==> returned[i].checkpoint.id != returned[j].checkpoint.id
  }

  predicate DistinctExpected(expected: seq<Checkpoint>) {
    forall i, j :: 0 <= i < j < |expected| ==> expected[i].id != expected[j].id
  }

  /** Every expected checkpoint is answered, nothing is returned twice, and the counts agree. */
  predicate Matches(verify: Check, expected: seq<Checkpoint>, returned: seq<Signed>) {
    && |returned| == |expected| && DistinctIds(returned) && DistinctExpected(expected)
    && forall e <- expected :: exists s <- returned :: s.checkpoint == e && verify(e, s)
  }

  datatype VerifyError = ChangedTransaction | WrongCount | Duplicate | Omitted | ChangedCheckpoint | Unexpected

  function ById(returned: seq<Signed>): map<Txid, Signed> {
    if returned == [] then map[]
    else ById(returned[..|returned| - 1])[returned[|returned| - 1].checkpoint.id := returned[|returned| - 1]]
  }

  lemma {:induction false} ByIdHolds(returned: seq<Signed>)
    requires DistinctIds(returned)
    ensures Indexes(ById(returned), returned)
  {
    hide Indexes;
    if returned == [] {
      NothingIndexed();
    } else {
      var (earlier, s) := (returned[..|returned| - 1], returned[|returned| - 1]);
      ByIdHolds(earlier);
      assert returned == earlier + [s];
      forall e <- earlier ensures e.checkpoint.id != s.checkpoint.id {}
      OneMoreIndexed(ById(earlier), earlier, s);
    }
  }

  predicate Indexes(all: map<Txid, Signed>, returned: seq<Signed>) {
    && (forall s <- returned :: s.checkpoint.id in all && all[s.checkpoint.id] == s)
    && (forall id <- all :: all[id] in returned && all[id].checkpoint.id == id)
    && |all| == |returned|
  }

  lemma NothingIndexed()
    ensures Indexes(map[], [])
  {}

  lemma OneMoreIndexed(all: map<Txid, Signed>, earlier: seq<Signed>, s: Signed)
    requires Indexes(all, earlier) && forall e <- earlier :: e.checkpoint.id != s.checkpoint.id
    ensures Indexes(all[s.checkpoint.id := s], earlier + [s])
  {
    assert all[s.checkpoint.id := s].Keys == all.Keys + {s.checkpoint.id};
  }

  /** Index the returned checkpoints; a repeated identifier is refused. */
  method IndexReturned(returned: seq<Signed>) returns (r: Option<map<Txid, Signed>>)
    ensures r == if DistinctIds(returned) then Some(ById(returned)) else None
  {
    var byId: map<Txid, Signed> := map[];
    for i := 0 to |returned|
      invariant byId == ById(returned[..i]) && DistinctIds(returned[..i])
    {
      OneMoreReturned(returned, i);
      if returned[i].checkpoint.id in byId { return None; }
      byId := byId[returned[i].checkpoint.id := returned[i]];
    }
    assert returned[..|returned|] == returned;
    return Some(byId);
  }

  lemma OneMoreReturned(returned: seq<Signed>, i: nat)
    requires i < |returned| && DistinctIds(returned[..i])
    ensures ById(returned[..i + 1]) == ById(returned[..i])[returned[i].checkpoint.id := returned[i]]
    ensures if returned[i].checkpoint.id in ById(returned[..i]) then !DistinctIds(returned) else DistinctIds(returned[..i + 1])
  {
    hide DistinctIds, ById;
    var earlier := returned[..i];
    assert returned[..i + 1] == earlier + [returned[i]];
    ByIdSnoc(earlier, returned[i]);
    ByIdHolds(earlier);
    if returned[i].checkpoint.id in ById(earlier) { Repeated(returned, i, ById(earlier)[returned[i].checkpoint.id]); }
    else { NewIsDistinct(earlier, returned[i]); }
  }

  lemma ByIdSnoc(earlier: seq<Signed>, s: Signed)
    ensures ById(earlier + [s]) == ById(earlier)[s.checkpoint.id := s]
  {
    assert (earlier + [s])[..|earlier|] == earlier;
  }

  lemma Repeated(returned: seq<Signed>, i: nat, s: Signed)
    requires i < |returned| && s in returned[..i] && s.checkpoint.id == returned[i].checkpoint.id
    ensures !DistinctIds(returned)
  {
    var j :| 0 <= j < i && returned[j] == s;
  }

  lemma NewIsDistinct(earlier: seq<Signed>, s: Signed)
    requires DistinctIds(earlier) && forall e <- earlier :: e.checkpoint.id != s.checkpoint.id
    ensures DistinctIds(earlier + [s])
  {}

  /** Whether the answer to expected checkpoint `i` is still there and good, once earlier ones were taken. */
  predicate Takes(verify: Check, expected: seq<Checkpoint>, all: map<Txid, Signed>, i: nat)
    requires i < |expected|
  {
    expected[i].id in all && Answers(verify, expected[i], all[expected[i].id]) && expected[i].id !in IdsOf(expected[..i])
  }

  function IdsOf(expected: seq<Checkpoint>): set<Txid> { set c | c in expected :: c.id }

  lemma NoIds()
    ensures IdsOf([]) == {}
  {}

  lemma IdsOfMore(expected: seq<Checkpoint>, i: nat)
    requires i < |expected|
    ensures IdsOf(expected[..i + 1]) == IdsOf(expected[..i]) + {expected[i].id}
  {
    assert expected[..i + 1] == expected[..i] + [expected[i]];
    forall x ensures x in IdsOf(expected[..i + 1]) <==> x in IdsOf(expected[..i]) || x == expected[i].id {
      if c :| c in expected[..i] && c.id == x { assert c in expected[..i + 1]; }
      if x == expected[i].id { assert expected[i] in expected[..i + 1]; }
    }
  }

  lemma IdsDiffer(expected: seq<Checkpoint>, i: nat)
    requires i < |expected|
    ensures expected[i].id in IdsOf(expected[..i]) <==> exists j :: 0 <= j < i && expected[j].id == expected[i].id
  {
    if j :| 0 <= j < i && expected[j].id == expected[i].id { assert expected[..i][j] in expected[..i]; }
    if c :| c in expected[..i] && c.id == expected[i].id {
      var j :| 0 <= j < i && expected[..i][j] == c;
      assert expected[j].id == expected[i].id;
    }
  }

  lemma MatchesByTaking(verify: Check, expected: seq<Checkpoint>, returned: seq<Signed>)
    requires DistinctIds(returned) && |returned| == |expected|
    ensures Matches(verify, expected, returned) <==> forall i :: 0 <= i < |expected| ==> Takes(verify, expected, ById(returned), i)
  {
    var all := ById(returned);
    ByIdHolds(returned);
    if Matches(verify, expected, returned) {
      forall i | 0 <= i < |expected| ensures Takes(verify, expected, all, i) {
        assert expected[i] in expected;
        var s :| s in returned && Answers(verify, expected[i], s);
        assert all[s.checkpoint.id] == s;
        IdsDiffer(expected, i);
      }
    }
    if forall i :: 0 <= i < |expected| ==> Takes(verify, expected, all, i) {
      forall e <- expected ensures exists s <- returned :: Answers(verify, e, s) {
        var i :| 0 <= i < |expected| && expected[i] == e;
        assert Takes(verify, expected, all, i) && all[e.id] in returned;
      }
      forall i, j | 0 <= i < j < |expected| ensures expected[i].id != expected[j].id {
        assert Takes(verify, expected, all, j);
        IdsDiffer(expected, j);
      }
    }
  }

  /** The checkpoint half of `verify_submit_response`: answers are taken by identifier, so none is ever left over. */
  method VerifyCheckpoints(verify: Check, expected: seq<Checkpoint>, returned: seq<Signed>)
    returns (r: Result<seq<Signed>, VerifyError>)
    ensures r.Ok? <==> Matches(verify, expected, returned)
    ensures r.Ok? ==> |r.value| == |expected| && forall i :: 0 <= i < |expected| ==>
                        r.value[i] in returned && r.value[i].checkpoint == expected[i] && verify(expected[i], r.value[i])
    ensures r != Err(Unexpected)
  {
    if |returned| != |expected| { return Err(WrongCount); }
    var indexed := IndexReturned(returned);
    if indexed.None? { return Err(Duplicate); }
    MatchesByTaking(verify, expected, returned);
    ByIdHolds(returned);
    r := TakeAnswers(verify, expected, indexed.value);
    if r.Ok? {
      forall i | 0 <= i < |expected| ensures r.value[i] in returned && Answers(verify, expected[i], r.value[i]) {
        assert Takes(verify, expected, indexed.value, i);
      }
    }
  }

  /** Take the answers one by one out of the index. */
  method TakeAnswers(verify: Check, expected: seq<Checkpoint>, all: map<Txid, Signed>) returns (r: Result<seq<Signed>, VerifyError>)
    requires |all| == |expected|
    ensures r.Ok? <==> forall i :: 0 <= i < |expected| ==> Takes(verify, expected, all, i)
    ensures r.Ok? ==> |r.value| == |expected| && forall i :: 0 <= i < |expected| ==>
                        expected[i].id in all && r.value[i] == all[expected[i].id]
    ensures r != Err(Unexpected)
  {
    hide Answers, IdsOf, Left;
    var left: map<Txid, Signed> := all;
    var verified: seq<Signed> := [];
    AllLeft(all, expected);
    for i := 0 to |expected|
      invariant |verified| == i && Left(all, expected, i, left)
      invariant forall j :: 0 <= j < i ==> Takes(verify, expected, all, j) && verified[j] == all[expected[j].id]
    {
      var e := expected[i];
      LeftHas(all, expected, i, left);
      if e.id !in left {
        assert !Takes(verify, expected, all, i);
        return Err(Omitted);
      }
      var s := left[e.id];
      if !Answers(verify, e, s) {
        assert !Takes(verify, expected, all, i);
        return Err(ChangedCheckpoint);
      }
      LeftAfter(all, expected, i, left);
      left := left - {e.id};
      verified := verified + [s];
    }
    NoneLeft(all, expected, left);
    if left != map[] { return Err(Unexpected); }
    return Ok(verified);
  }

  /** The answers not yet taken by the first `i` expected checkpoints. */
  predicate Left(all: map<Txid, Signed>, expected: seq<Checkpoint>, i: nat, left: map<Txid, Signed>)
    requires i <= |expected|
  {
    left == all - IdsOf(expected[..i]) && |left| == |all| - i
  }

  lemma AllLeft(all: map<Txid, Signed>, expected: seq<Checkpoint>)
    ensures Left(all, expected, 0, all)
  {
    NoIds();
    assert expected[..0] == [];
  }

  lemma LeftHas(all: map<Txid, Signed>, expected: seq<Checkpoint>, i: nat, left: map<Txid, Signed>)
    requires i < |expected| && Left(all, expected, i, left)
    ensures expected[i].id in left <==> expected[i].id in all && expected[i].id !in IdsOf(expected[..i])
    ensures expected[i].id in left ==> left[expected[i].id] == all[expected[i].id]
  {}

  lemma LeftAfter(all: map<Txid, Signed>, expected: seq<Checkpoint>, i: nat, left: map<Txid, Signed>)
    requires i < |expected| && Left(all, expected, i, left) && expected[i].id in left
    ensures Left(all, expected, i + 1, left - {expected[i].id})
  {
    IdsOfMore(expected, i);
    var rest := left - {expected[i].id};
    assert rest.Keys == left.Keys - {expected[i].id};
  }

  lemma NoneLeft(all: map<Txid, Signed>, expected: seq<Checkpoint>, left: map<Txid, Signed>)
    requires Left(all, expected, |expected|, left) && |all| == |expected|
    ensures left == map[]
  {}

  /** Reordering the operator's answer changes nothing. */
  lemma OrderDoesNotMatter(verify: Check, expected: seq<Checkpoint>, one: seq<Signed>, other: seq<Signed>)
    requires multiset(one) == multiset(other) && Matches(verify, expected, one)
    ensures Matches(verify, expected, other)
  {
    assert |one| == |multiset(one)| == |multiset(other)| == |other|;
    forall i, j | 0 <= i < j < |other| ensures other[i].checkpoint.id != other[j].checkpoint.id {
      DistinctPair(one, other, i, j);
    }
    forall e <- expected ensures exists s <- other :: Answers(verify, e, s) {
      var s :| s in one && Answers(verify, e, s);
      assert s in multiset(other);
    }
  }

  lemma {:induction false} DistinctCounts(s: seq<Signed>)
    requires DistinctIds(s)
    ensures forall x :: multiset(s)[x] <= 1
  {
    if s != [] {
      var last := |s| - 1;
      DistinctCounts(s[..last]);
      assert s == s[..last] + [s[last]];
      assert s[last] !in s[..last];
    }
  }

  lemma DistinctPair(one: seq<Signed>, other: seq<Signed>, i: nat, j: nat)
    requires multiset(one) == multiset(other) && DistinctIds(one) && i < j < |other|
    ensures other[i].checkpoint.id != other[j].checkpoint.id
  {
    DistinctCounts(one);
    var (a, b) := (other[i], other[j]);
    assert other == other[..i] + [a] + other[i + 1..j] + [b] + other[j + 1..];
    assert a in multiset(one) && b in multiset(one);
    assert a == b ==> multiset(other)[a] >= 2;
    var m :| 0 <= m < |one| && one[m] == a;
    var n :| 0 <= n < |one| && one[n] == b;
  }

  // ----- the ledger -----

  datatype Transaction = Transaction(id: Txid, content: nat, inputs: seq<OutPoint>, checkpoints: seq<Checkpoint>)

  datatype Status = Pending | Final

  datatype Accepted = Accepted(inputs: set<OutPoint>, status: Status)

  /** A request that reached the ledger, and whether its transaction was already accepted. */
  datatype Request = Submission(id: Txid, repeated: bool) | Finalization(id: Txid)

  function InputSet(t: Transaction): set<OutPoint> { set i | i in t.inputs }

  type Txs = map<Txid, Accepted>

  predicate Spent(txs: Txs, input: OutPoint) { exists id <- txs :: input in txs[id].inputs }

  predicate IsFinal(txs: Txs, id: Txid) { id in txs && txs[id].status == Final }

  /** Accepted transactions never share an input, and each has one. */
  predicate Disjoint(txs: Txs) {
    && (forall a <- txs, b <- txs :: a != b ==> txs[a].inputs !! txs[b].inputs)
    && forall a <- txs :: txs[a].inputs != {}
  }

  /** The accepted but unfinalized transactions over any of these inputs. */
  function PendingOn(txs: Txs, inputs: set<OutPoint>): set<Txid> {
    set id | id in txs && txs[id].status == Pending && txs[id].inputs * inputs != {}
  }

  /** What anyone else may do to the ledger. */
  datatype Move = Submitted(t: Transaction) | Completed(id: Txid)

  predicate Accepts(txs: Txs, t: Transaction) { t.inputs != [] && t.id !in txs && forall i <- t.inputs :: !Spent(txs, i) }

  function Moved(txs: Txs, m: Move): Txs {
    match m
    case Submitted(t) => if Accepts(txs, t) then txs[t.id := Accepted(InputSet(t), Pending)] else txs
    case Completed(id) => if id in txs then txs[id := txs[id].(status := Final)] else txs
  }

  function AllMoved(txs: Txs, moves: seq<Move>): Txs
    decreases |moves|
  {
    if moves == [] then txs else AllMoved(Moved(txs, moves[0]), moves[1..])
  }

  predicate Foreign(m: Move, id: Txid) { match m case Submitted(t) => t.id != id case Completed(other) => other != id }

  lemma MoveKeeps(txs: Txs, m: Move, id: Txid)
    requires Disjoint(txs) && Foreign(m, id)
    ensures Disjoint(Moved(txs, m)) && Keeps(txs, Moved(txs, m), id) && (id in Moved(txs, m) ==> id in txs)
  {
    if m.Submitted? && Accepts(txs, m.t) { assert m.t.inputs[0] in InputSet(m.t); }
  }

  lemma {:induction false} MovesKeep(txs: Txs, moves: seq<Move>, id: Txid)
    requires Disjoint(txs) && forall m <- moves :: Foreign(m, id)
    ensures Disjoint(AllMoved(txs, moves)) && Keeps(txs, AllMoved(txs, moves), id) && (id in AllMoved(txs, moves) ==> id in txs)
    decreases |moves|
  {
    hide Disjoint, Moved, Foreign;
    if moves != [] {
      MoveKeeps(txs, moves[0], id);
      MovesKeep(Moved(txs, moves[0]), moves[1..], id);
    }
  }

  /** An accepted transaction stays, with its inputs, and a final one stays final. */
  predicate Keeps(before: Txs, after: Txs, id: Txid) {
    && (id in before ==> id in after && after[id].inputs == before[id].inputs)
    && (IsFinal(before, id) ==> IsFinal(after, id))
  }

  /** The operator's ledger; `requests` are those of the recovering client. */
  class Ledger {
    var txs: Txs
    var requests: seq<Request>

    predicate Valid()
      reads this
    {
      Disjoint(txs)
    }

    method Submit(t: Transaction) returns (accepted: bool)
      requires Valid() && t.inputs != []
      modifies this
      ensures Valid() && requests == old(requests) + [Submission(t.id, t.id in old(txs))]
      ensures accepted ==> txs == old(txs)[t.id := Accepted(InputSet(t), Pending)]
      ensures !accepted ==> txs == old(txs)
      ensures accepted <==> t.id !in old(txs) && forall i <- t.inputs :: !Spent(old(txs), i)
    {
      requests := requests + [Submission(t.id, t.id in txs)];
      if t.id in txs || exists i <- t.inputs :: Spent(txs, i) { return false; }
      assert t.inputs[0] in InputSet(t);
      txs := txs[t.id := Accepted(InputSet(t), Pending)];
      return true;
    }

    /** Others use the ledger between this client's requests. */
    method Serve(moves: seq<Move>, ghost ours: Txid)
      requires Valid() && forall m <- moves :: Foreign(m, ours)
      modifies this`txs
      ensures Valid() && txs == AllMoved(old(txs), moves)
    {
      hide Disjoint, Moved, Foreign;
      for k := 0 to |moves|
        invariant Valid() && AllMoved(txs, moves[k..]) == AllMoved(old(txs), moves)
      {
        assert moves[k..][1..] == moves[k + 1..];
        MoveKeeps(txs, moves[k], ours);
        txs := Moved(txs, moves[k]);
      }
    }

    method Finalize(id: Txid) returns (done: bool)
      requires Valid()
      modifies this
      ensures Valid() && requests == old(requests) + [Finalization(id)]
      ensures done <==> id in old(txs)
      ensures txs == if done then old(txs)[id := old(txs)[id].(status := Final)] else old(txs)
    {
      requests := requests + [Finalization(id)];
      if id !in txs { return false; }
      txs := txs[id := txs[id].(status := Final)];
      return true;
    }
  }

  // ----- one recovery attempt -----

  /** What goes wrong during one attempt: each read may fail, each write may not arrive or its reply be lost. */
  datatype Faults = Faults(
    settledRead: bool, pendingRead: bool, recordsRead: bool,
    known: set<OutPoint>, usable: set<OutPoint>,
    submitArrives: bool, submitReplies: bool, rejection: nat, answer: Answer,
    finalizes: seq<(bool, bool)>)

  datatype Outcome = Finalized(id: Txid) | AwaitingFinalization | SubmissionUnknown | Failed

  predicate DefinitiveRejection(status: nat) { 400 <= status < 500 && status !in {408, 409, 425, 429} }

  predicate Consistent(verify: Check, t: Transaction, a: Answer) {
    a.id == t.id && a.arkContent == t.content && a.arkSigned && Matches(verify, t.checkpoints, a.checkpoints)
  }

  // ----- which outcome an attempt reports -----

  /** One of the three finalization calls arrives and is answered. */
  predicate Finalizes(faults: Faults) { exists k :: 0 <= k < 3 && k < |faults.finalizes| && faults.finalizes[k] == (true, true) }

  function FinalizeOutcome(accepted: bool, id: Txid, faults: Faults): Outcome {
    if accepted && Finalizes(faults) then Finalized(id) else AwaitingFinalization
  }

  function AnsweredOutcome(verify: Check, accepted: bool, t: Transaction, faults: Faults): Outcome {
    if Consistent(verify, t, faults.answer) then FinalizeOutcome(accepted, t.id, faults) else Failed
  }

  function SubmitOutcome(verify: Check, txs: Txs, t: Transaction, faults: Faults): Outcome {
    if faults.submitArrives && Accepts(txs, t) && faults.submitReplies then AnsweredOutcome(verify, true, t, faults)
    else if DefinitiveRejection(faults.rejection) then Failed
    else SubmissionUnknown
  }

  /** The first input that is missing, spent or unusable decides. */
  function InputsOutcome(txs: Txs, inputs: seq<OutPoint>, faults: Faults): Option<Outcome> {
    if inputs == [] then None
    else if inputs[0] !in faults.known || Spent(txs, inputs[0]) then Some(SubmissionUnknown)
    else if inputs[0] !in faults.usable then Some(Failed)
    else InputsOutcome(txs, inputs[1..], faults)
  }

  /** What one attempt reports, given the ledger it finds and what goes wrong. */
  function ResumeOutcome(verify: Check, txs: Txs, t: Transaction, faults: Faults): Outcome {
    if !faults.settledRead then Failed
    else if IsFinal(txs, t.id) then Finalized(t.id)
    else if !faults.pendingRead then Failed
    else
      var pending := PendingOn(txs, InputSet(t));
      if pending == {t.id} then AnsweredOutcome(verify, true, t, faults)
      else if pending != {} || !faults.recordsRead then Failed
      else
        match InputsOutcome(txs, t.inputs, faults)
        case Some(blocked) => blocked
        case None => SubmitOutcome(verify, txs, t, faults)
  }

  /** An attempt in which nothing fails and the operator answers properly. */
  predicate Smooth(verify: Check, journal: Transaction, faults: Faults) {
    && faults.settledRead && faults.pendingRead && faults.recordsRead
    && InputSet(journal) <= faults.known && InputSet(journal) <= faults.usable
    && faults.submitArrives && faults.submitReplies && Consistent(verify, journal, faults.answer)
    && faults.finalizes != [] && faults.finalizes[0] == (true, true)
  }

  /** The ledger has the transaction, or could still accept it. */
  predicate Recoverable(txs: Txs, journal: Transaction) {
    journal.id in txs || forall i <- journal.inputs :: !Spent(txs, i)
  }

  /** If the ledger has the journaled transaction, it has it under its own inputs. */
  predicate Journaled(txs: Txs, journal: Transaction) {
    journal.id in txs ==> txs[journal.id].inputs == InputSet(journal)
  }

  lemma {:induction false} InputsReady(txs: Txs, inputs: seq<OutPoint>, faults: Faults)
    ensures InputsOutcome(txs, inputs, faults).None? <==>
              forall i <- inputs :: i in faults.known && i in faults.usable && !Spent(txs, i)
  {
    if inputs != [] {
      InputsReady(txs, inputs[1..], faults);
      assert inputs == [inputs[0]] + inputs[1..];
    }
  }

  /** What the ledger accepted and has not finalized is listed when its own inputs are asked about. */
  lemma AcceptedIsListed(txs: Txs, journal: Transaction)
    requires Disjoint(txs) && Journaled(txs, journal) && journal.inputs != []
    ensures journal.id in PendingOn(txs, InputSet(journal)) <==> journal.id in txs && !IsFinal(txs, journal.id)
    ensures journal.id in txs && !IsFinal(txs, journal.id) ==> PendingOn(txs, InputSet(journal)) == {journal.id}
    ensures (forall i <- journal.inputs :: !Spent(txs, i)) ==> PendingOn(txs, InputSet(journal)) == {} && journal.id !in txs
    ensures forall i <- journal.inputs :: i in InputSet(journal)
  {
    assert journal.inputs[0] in InputSet(journal);
    if journal.id in txs { assert txs[journal.id].inputs * InputSet(journal) == InputSet(journal); }
  }

  /** An undisturbed attempt on a recoverable transaction finalizes it. */
  lemma SmoothFinalizes(verify: Check, txs: Txs, journal: Transaction, faults: Faults)
    requires Disjoint(txs) && Journaled(txs, journal) && journal.inputs != []
    requires Smooth(verify, journal, faults) && Recoverable(txs, journal)
    ensures ResumeOutcome(verify, txs, journal, faults) == Finalized(journal.id)
  {
    hide Disjoint, PendingOn, Consistent;
    AcceptedIsListed(txs, journal);
    InputsReady(txs, journal.inputs, faults);
  }

  /** The first input that cannot be spent is missing or spent, rather than unusable. */
  ghost predicate FateUnknown(txs: Txs, inputs: seq<OutPoint>, faults: Faults) {
    exists k :: 0 <= k < |inputs| && (inputs[k] !in faults.known || Spent(txs, inputs[k]))
                && forall j :: 0 <= j < k ==> inputs[j] in faults.known && inputs[j] in faults.usable && !Spent(txs, inputs[j])
  }

  lemma {:induction false} FirstBlockedDecides(txs: Txs, inputs: seq<OutPoint>, faults: Faults)
    ensures InputsOutcome(txs, inputs, faults) == Some(SubmissionUnknown) <==> FateUnknown(txs, inputs, faults)
    ensures InputsOutcome(txs, inputs, faults) in {None, Some(SubmissionUnknown), Some(Failed)}
  {
    if inputs != [] {
      var rest := inputs[1..];
      FirstBlockedDecides(txs, rest, faults);
      if FateUnknown(txs, rest, faults) && inputs[0] in faults.known && inputs[0] in faults.usable && !Spent(txs, inputs[0]) {
        var k :| 0 <= k < |rest| && (rest[k] !in faults.known || Spent(txs, rest[k]))
                 && forall j :: 0 <= j < k ==> rest[j] in faults.known && rest[j] in faults.usable && !Spent(txs, rest[j]);
        assert inputs[k + 1] == rest[k];
        forall j | 0 <= j < k + 1 ensures inputs[j] in faults.known && inputs[j] in faults.usable && !Spent(txs, inputs[j]) {
          if j > 0 { assert inputs[j] == rest[j - 1]; }
        }
      }
      if FateUnknown(txs, inputs, faults) && !(inputs[0] !in faults.known || Spent(txs, inputs[0])) {
        var k :| 0 <= k < |inputs| && (inputs[k] !in faults.known || Spent(txs, inputs[k]))
                 && forall j :: 0 <= j < k ==> inputs[j] in faults.known && inputs[j] in faults.usable && !Spent(txs, inputs[j]);
        assert k > 0 && rest[k - 1] == inputs[k];
        forall j | 0 <= j < k - 1 ensures rest[j] in faults.known && rest[j] in faults.usable && !Spent(txs, rest[j]) {
          assert rest[j] == inputs[j + 1];
        }
      }
    }
  }

  /** The operator's answer is for this very transaction, signed, with every checkpoint answered. */
  ghost predicate Vouched(verify: Check, t: Transaction, a: Answer) {
    a.id == t.id && a.arkContent == t.content && a.arkSigned && Matches(verify, t.checkpoints, a.checkpoints)
  }

  /** What the ledger has of the transaction: it is listed as pending, or every input is there to be submitted and that is answered. */
  ghost predicate Obtained(txs: Txs, t: Transaction, faults: Faults) {
    && faults.settledRead && faults.pendingRead && !IsFinal(txs, t.id)
    && (t.id in txs
        || (&& faults.recordsRead && faults.submitArrives && faults.submitReplies
            && forall i <- t.inputs :: i in faults.known && i in faults.usable && !Spent(txs, i)))
  }

  /**
   Finalized is reported exactly for a transaction that is final, or obtained with a proper answer and then finalized
   by one of three calls; awaiting exactly if none of the three succeeds; unknown exactly if nothing pending spends
   the inputs and either the first input that blocks is missing or spent, or the unanswered submission was not
   rejected with a definitive status; everything else has failed.
  */
  lemma ReportsExactly(verify: Check, txs: Txs, t: Transaction, faults: Faults)
    requires Disjoint(txs) && Journaled(txs, t) && t.inputs != []
    ensures var r := ResumeOutcome(verify, txs, t, faults);
            var done := exists k :: 0 <= k < 3 && k < |faults.finalizes| && faults.finalizes[k] == (true, true);
            var obtained := Obtained(txs, t, faults) && Vouched(verify, t, faults.answer);
            var definitive := 400 <= faults.rejection < 500 && faults.rejection !in {408, 409, 425, 429};
            && (r.Finalized? ==> r.id == t.id)
            && (r.Finalized? <==> faults.settledRead && (IsFinal(txs, t.id) || (obtained && done)))
            && (r == AwaitingFinalization <==> obtained && !done)
            && (r == SubmissionUnknown <==>
                  && faults.settledRead && faults.pendingRead && faults.recordsRead && t.id !in txs && PendingOn(txs, InputSet(t)) == {}
                  && (FateUnknown(txs, t.inputs, faults)
                      || (&& (forall i <- t.inputs :: i in faults.known && i in faults.usable && !Spent(txs, i))
                          && !(faults.submitArrives && faults.submitReplies) && !definitive)))
  {
    hide Disjoint, PendingOn, InputSet, Matches, FateUnknown, Spent, InputsOutcome;
    AcceptedIsListed(txs, t);
    InputsReady(txs, t.inputs, faults);
    FirstBlockedDecides(txs, t.inputs, faults);
  }

  // ----- the code -----

  /** New requests concern only this transaction, and no submission among them repeats an accepted one. */
  predicate OnlyNewRequests(before: seq<Request>, after: seq<Request>, id: Txid) {
    && before <= after
    && forall i :: |before| <= i < |after| ==> after[i] == Submission(id, false) || after[i] == Finalization(id)
  }

  /** Every other transaction is as it was, and this one is kept. */
  predicate OthersUntouched(before: Txs, after: Txs, id: Txid) { before - {id} == after - {id} && Keeps(before, after, id) }

  lemma NoRequests(requests: seq<Request>, id: Txid)
    ensures OnlyNewRequests(requests, requests, id)
  {}

  method FinalizeVerified(ledger: Ledger, id: Txid, faults: Faults) returns (outcome: Outcome)
    requires ledger.Valid()
    modifies ledger
    ensures ledger.Valid() && OnlyNewRequests(old(ledger.requests), ledger.requests, id)
    ensures OthersUntouched(old(ledger.txs), ledger.txs, id) && (id in ledger.txs ==> id in old(ledger.txs))
    ensures outcome == FinalizeOutcome(id in old(ledger.txs), id, faults)
    ensures outcome.Finalized? ==> IsFinal(ledger.txs, id)
  {
    for attempt := 0 to 3
      invariant ledger.Valid() && OnlyNewRequests(old(ledger.requests), ledger.requests, id)
      invariant OthersUntouched(old(ledger.txs), ledger.txs, id) && (id in ledger.txs ==> id in old(ledger.txs))
      invariant id in old(ledger.txs) ==>
                  forall k :: 0 <= k < attempt && k < |faults.finalizes| ==> faults.finalizes[k] != (true, true)
    {
      var (arrives, replies) := if attempt < |faults.finalizes| then faults.finalizes[attempt] else (false, false);
      if arrives {
        var done := ledger.Finalize(id);
        if done && replies { return Finalized(id); }
      }
    }
    return AwaitingFinalization;
  }

  method VerifyAnswer(verify: Check, t: Transaction, a: Answer) returns (ok: bool)
    ensures ok <==> Consistent(verify, t, a)
  {
    if a.id != t.id || a.arkContent != t.content || !a.arkSigned { return false; }
    var checkpoints := VerifyCheckpoints(verify, t.checkpoints, a.checkpoints);
    return checkpoints.Ok?;
  }

  /**
   `resume_tx`: whatever fails, it never submits what the ledger already accepted, never touches another
   transaction, and claims finality only when the ledger has it. What it reports is fixed by the ledger it finds
   and by what fails.
  */
  method ResumeTx(verify: Check, ledger: Ledger, journal: Transaction, faults: Faults) returns (outcome: Outcome)
    requires ledger.Valid() && journal.inputs != [] && Journaled(ledger.txs, journal)
    modifies ledger
    ensures ledger.Valid() && Journaled(ledger.txs, journal)
    ensures OnlyNewRequests(old(ledger.requests), ledger.requests, journal.id)
    ensures OthersUntouched(old(ledger.txs), ledger.txs, journal.id)
    ensures outcome == ResumeOutcome(verify, old(ledger.txs), journal, faults)
    ensures outcome.Finalized? ==> outcome.id == journal.id && IsFinal(ledger.txs, journal.id)
  {
    hide Disjoint, PendingOn, InputSet, OnlyNewRequests, Finalizes, Consistent;
    NoRequests(ledger.requests, journal.id);
    if !faults.settledRead { return Failed; }
    if IsFinal(ledger.txs, journal.id) { return Finalized(journal.id); }
    if !faults.pendingRead { return Failed; }
    var pending := PendingOn(ledger.txs, InputSet(journal));
    AcceptedIsListed(ledger.txs, journal);
    assert |{journal.id}| == 1;
    if |pending| > 1 { return Failed; }
    if |pending| == 1 {
      var recovered :| recovered in pending;
      OnlyPending(pending, recovered);
      if recovered != journal.id { return Failed; }
      var ok := VerifyAnswer(verify, journal, faults.answer);
      if !ok { return Failed; }
      outcome := FinalizeVerified(ledger, journal.id, faults);
      return;
    }
    if !faults.recordsRead { return Failed; }
    var blocked := CheckInputs(ledger.txs, journal.inputs, faults);
    if blocked.Some? { return blocked.value; }
    InputsReady(ledger.txs, journal.inputs, faults);
    outcome := SubmitPrepared(verify, ledger, journal, faults);
  }

  lemma OnlyPending(s: set<Txid>, x: Txid)
    requires |s| == 1 && x in s
    ensures s == {x}
  {
    assert |s - {x}| == 0;
  }

  /** The indexed records of the inputs: a missing or spent one leaves the submission's fate unknown. */
  method CheckInputs(txs: Txs, inputs: seq<OutPoint>, faults: Faults) returns (blocked: Option<Outcome>)
    ensures blocked == InputsOutcome(txs, inputs, faults)
    ensures blocked.Some? ==> blocked.value in {SubmissionUnknown, Failed}
  {
    for i := 0 to |inputs|
      invariant InputsOutcome(txs, inputs[i..], faults) == InputsOutcome(txs, inputs, faults)
    {
      assert inputs[i..][1..] == inputs[i + 1..];
      if inputs[i] !in faults.known || Spent(txs, inputs[i]) { return Some(SubmissionUnknown); }
      if inputs[i] !in faults.usable { return Some(Failed); }
    }
    return None;
  }

  method SubmitPrepared(verify: Check, ledger: Ledger, journal: Transaction, faults: Faults) returns (outcome: Outcome)
    requires ledger.Valid() && journal.inputs != [] && journal.id !in ledger.txs
    modifies ledger
    ensures ledger.Valid() && Journaled(ledger.txs, journal)
    ensures OnlyNewRequests(old(ledger.requests), ledger.requests, journal.id)
    ensures OthersUntouched(old(ledger.txs), ledger.txs, journal.id)
    ensures outcome == SubmitOutcome(verify, old(ledger.txs), journal, faults)
    ensures outcome.Finalized? ==> outcome.id == journal.id && IsFinal(ledger.txs, journal.id)
  {
    hide Disjoint, Finalizes, Consistent;
    var accepted := false;
    if faults.submitArrives { accepted := ledger.Submit(journal); }
    if !accepted || !faults.submitReplies {
      return if DefinitiveRejection(faults.rejection) then Failed else SubmissionUnknown;
    }
    var ok := VerifyAnswer(verify, journal, faults.answer);
    if !ok { return Failed; }
    outcome := FinalizeVerified(ledger, journal.id, faults);
  }

  // ----- any number of attempts -----

  /** What others do before an attempt, and what goes wrong in it. */
  datatype Round = Round(others: seq<Move>, faults: Faults)

  /**
   Any number of attempts, each cut short anywhere, with anyone else's transactions accepted and finalized in
   between. `found` is the ledger each attempt comes upon.
  */
  method RunRecovery(verify: Check, ledger: Ledger, journal: Transaction, rounds: seq<Round>)
    returns (outcomes: seq<Outcome>, ghost found: seq<Txs>)
    requires ledger.Valid() && journal.inputs != [] && Journaled(ledger.txs, journal)
    requires forall r <- rounds, m <- r.others :: Foreign(m, journal.id)
    modifies ledger
    ensures ledger.Valid() && OnlyNewRequests(old(ledger.requests), ledger.requests, journal.id)
    ensures Keeps(old(ledger.txs), ledger.txs, journal.id)
    ensures |outcomes| == |found| == |rounds|
    ensures rounds != [] ==> found[0] == AllMoved(old(ledger.txs), rounds[0].others)
    ensures forall k :: 0 <= k < |rounds| ==> outcomes[k] == ResumeOutcome(verify, found[k], journal, rounds[k].faults)
    ensures forall o <- outcomes :: o.Finalized? ==> o.id == journal.id && IsFinal(ledger.txs, journal.id)
    ensures forall k :: 0 <= k < |rounds| && Smooth(verify, journal, rounds[k].faults) && Recoverable(found[k], journal) ==>
              outcomes[k] == Finalized(journal.id)
    ensures forall k :: 0 <= k < |rounds| && journal.id in old(ledger.txs) ==> Recoverable(found[k], journal)
  {
    hide Disjoint, ResumeOutcome, Smooth, Foreign, AllMoved;
    outcomes, found := [], [];
    for i := 0 to |rounds|
      invariant ledger.Valid() && OnlyNewRequests(old(ledger.requests), ledger.requests, journal.id)
      invariant Keeps(old(ledger.txs), ledger.txs, journal.id) && Journaled(ledger.txs, journal)
      invariant |outcomes| == |found| == i
      invariant i == 0 ==> ledger.txs == old(ledger.txs)
      invariant i > 0 ==> found[0] == AllMoved(old(ledger.txs), rounds[0].others)
      invariant forall k :: 0 <= k < i ==> outcomes[k] == ResumeOutcome(verify, found[k], journal, rounds[k].faults)
      invariant forall o <- outcomes :: o.Finalized? ==> o.id == journal.id && IsFinal(ledger.txs, journal.id)
      invariant forall k :: 0 <= k < i && Smooth(verify, journal, rounds[k].faults) && Recoverable(found[k], journal) ==>
                  outcomes[k] == Finalized(journal.id)
      invariant forall k :: 0 <= k < i && journal.id in old(ledger.txs) ==> Recoverable(found[k], journal)
    {
      assert rounds[i] in rounds;
      MovesKeep(ledger.txs, rounds[i].others, journal.id);
      ledger.Serve(rounds[i].others, journal.id);
      ghost var here := ledger.txs;
      if Smooth(verify, journal, rounds[i].faults) && Recoverable(here, journal) {
        SmoothFinalizes(verify, here, journal, rounds[i].faults);
      }
      var outcome := ResumeTx(verify, ledger, journal, rounds[i].faults);
      outcomes, found := outcomes + [outcome], found + [here];
    }
  }
}
