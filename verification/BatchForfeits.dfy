/**
 Merging the locally signed forfeits with what the emulator returns. The emulator may leave out forfeits that
 need no signature of its own, but it can neither change one, add one, nor add a signature to one.
*/
module BatchForfeits {
  import opened Common
  import opened BatchGraph

  /** A signing key and the script leaf it signs for. */
  type Slot = (Key, nat)

  type Signatures = map<Slot, Signature>

  /** A local forfeit: the leaf it spends, whether that leaf names the owner, and the signatures on its VTXO input. */
  datatype Forfeit = Forfeit(tx: Transaction, leaf: nat, owned: bool, signatures: Signatures)

  datatype Answer = Answer(tx: Transaction, signatures: Signatures)

  datatype Signers = Signers(state: OutPoint, owner: Key, emulator: Key, verify: (Transaction, Slot, Signature) -> bool)

  datatype ForfeitError =
    | DuplicateAnswer | NoVtxoInput | ManyStates | ChangedForfeit | OmittedState | BadSignature | ExtraSignature
    | NoState | UnexpectedAnswer

  predicate IsState(s: Signers, f: Forfeit) { |f.tx.inputs| >= 2 && f.tx.inputs[1].previous == s.state }

  /** The emulator's signatures join ours and win where both signed. */
  function Combined(f: Forfeit, answer: Option<Answer>): Signatures {
    if answer.Some? then f.signatures + answer.value.signatures else f.signatures
  }

  predicate SignedBy(s: Signers, f: Forfeit, key: Key, all: Signatures) {
    (key, f.leaf) in all && s.verify(f.tx, (key, f.leaf), all[(key, f.leaf)])
  }

  /**
   A forfeit that may go out: its answer left it as it was, the state's carries the emulator's valid signature, an
   owned one the owner's, and there are no more signatures than that.
  */
  predicate Completed(s: Signers, f: Forfeit, answer: Option<Answer>) {
    var all := Combined(f, answer);
    && |f.tx.inputs| >= 2
    && (answer.Some? ==> answer.value.tx == f.tx)
    && var state := f.tx.inputs[1].previous == s.state;
       && (state ==>
             && answer.Some? && (s.emulator, f.leaf) in all
             && s.verify(f.tx, (s.emulator, f.leaf), all[(s.emulator, f.leaf)]))
       && (f.owned ==> (s.owner, f.leaf) in all && s.verify(f.tx, (s.owner, f.leaf), all[(s.owner, f.leaf)]))
       && |all| == (if state then 1 else 0) + (if f.owned then 1 else 0)
  }

  predicate DistinctAnswers(answers: seq<Answer>) {
    forall i, j :: 0 <= i < j < |answers| ==> answers[i].tx.id != answers[j].tx.id
  }

  function ById(answers: seq<Answer>): map<Txid, Answer> {
    if answers == [] then map[]
    else
      var last := answers[|answers| - 1];
      ById(answers[..|answers| - 1])[last.tx.id := last]
  }

  predicate Earlier(local: seq<Forfeit>, i: nat, id: Txid) { exists j :: 0 <= j < i && j < |local| && local[j].tx.id == id }

  /** An answer serves the first forfeit with its identifier. */
  function AnswerTo(local: seq<Forfeit>, all: map<Txid, Answer>, i: nat): Option<Answer>
    requires i < |local|
  {
    var id := local[i].tx.id;
    if id in all && !Earlier(local, i, id) then Some(all[id]) else None
  }

  predicate OneState(s: Signers, local: seq<Forfeit>) {
    && (exists f <- local :: |f.tx.inputs| >= 2 && f.tx.inputs[1].previous == s.state)
    && forall i, j :: 0 <= i < j < |local| && |local[i].tx.inputs| >= 2 && |local[j].tx.inputs| >= 2 ==>
         local[i].tx.inputs[1].previous != s.state || local[j].tx.inputs[1].previous != s.state
  }

  predicate AllCompleted(s: Signers, local: seq<Forfeit>, answers: seq<Answer>) {
    && DistinctAnswers(answers) && OneState(s, local)
    && (forall i :: 0 <= i < |local| ==> Completed(s, local[i], AnswerTo(local, ById(answers), i)))
    && forall id <- ById(answers) :: Earlier(local, |local|, id)
  }

  method IndexAnswers(answers: seq<Answer>) returns (r: Option<map<Txid, Answer>>)
    ensures r == if DistinctAnswers(answers) then Some(ById(answers)) else None
  {
    var all: map<Txid, Answer> := map[];
    for i := 0 to |answers|
      invariant all == ById(answers[..i])
      invariant DistinctAnswers(answers[..i])
      invariant forall id :: id in all <==> exists a <- answers[..i] :: a.tx.id == id
    {
      assert answers[..i + 1][..i] == answers[..i] && answers[..i + 1] == answers[..i] + [answers[i]];
      if answers[i].tx.id in all {
        var a :| a in answers[..i] && a.tx.id == answers[i].tx.id;
        return None;
      }
      all := all[answers[i].tx.id := answers[i]];
    }
    assert answers[..|answers|] == answers;
    return Some(all);
  }

  /** One merged forfeit. */
  method CombineOne(s: Signers, f: Forfeit, answer: Option<Answer>) returns (r: Result<Signatures, ForfeitError>)
    requires |f.tx.inputs| >= 2
    ensures r.Ok? <==> Completed(s, f, answer)
    ensures r.Ok? ==> r.value == Combined(f, answer)
  {
    var all := f.signatures;
    if answer.Some? {
      if answer.value.tx != f.tx { return Err(ChangedForfeit); }
      all := all + answer.value.signatures;
    } else if IsState(s, f) {
      return Err(OmittedState);
    }
    if IsState(s, f) && !SignedBy(s, f, s.emulator, all) { return Err(BadSignature); }
    if f.owned && !SignedBy(s, f, s.owner, all) { return Err(BadSignature); }
    var expected := (if IsState(s, f) then 1 else 0) + (if f.owned then 1 else 0);
    if |all| != expected { return Err(ExtraSignature); }
    return Ok(all);
  }

  /** What is left of the answers once the first `i` forfeits took theirs. */
  predicate Left(all: map<Txid, Answer>, local: seq<Forfeit>, i: nat, left: map<Txid, Answer>) {
    && left.Keys <= all.Keys && (forall id <- left :: left[id] == all[id])
    && forall id <- all :: id in left <==> !Earlier(local, i, id)
  }

  lemma LeftAfter(all: map<Txid, Answer>, local: seq<Forfeit>, i: nat, left: map<Txid, Answer>)
    requires i < |local| && Left(all, local, i, left)
    ensures AnswerTo(local, all, i) == if local[i].tx.id in left then Some(left[local[i].tx.id]) else None
    ensures Left(all, local, i + 1, left - {local[i].tx.id})
  {
    forall id <- all ensures Earlier(local, i + 1, id) <==> Earlier(local, i, id) || id == local[i].tx.id {}
  }

  /** Slot by slot: the emulator's signature where it gave one, ours otherwise. */
  lemma CombinedBySlot(f: Forfeit, answer: Answer, slot: Slot)
    ensures slot in Combined(f, Some(answer)) <==> slot in f.signatures || slot in answer.signatures
    ensures slot in Combined(f, Some(answer)) ==>
              Combined(f, Some(answer))[slot] == if slot in answer.signatures then answer.signatures[slot] else f.signatures[slot]
    ensures Combined(f, None) == f.signatures
  {}

  /** The merge of every forfeit with what the emulator answered to it. */
  predicate Merges(s: Signers, local: seq<Forfeit>, answers: seq<Answer>, merged: seq<Signatures>) {
    && AllCompleted(s, local, answers) && |merged| == |local|
    && forall i :: 0 <= i < |local| ==> merged[i] == Combined(local[i], AnswerTo(local, ById(answers), i))
  }

  /** `combine_forfeits`: it succeeds exactly when every forfeit completes and every answer found its forfeit. */
  method CombineForfeits(s: Signers, local: seq<Forfeit>, answers: seq<Answer>) returns (r: Result<seq<Signatures>, ForfeitError>)
    ensures r.Ok? <==> AllCompleted(s, local, answers)
    ensures r.Ok? ==> |r.value| == |local|
    ensures r.Ok? ==> forall i :: 0 <= i < |local| ==> r.value[i] == Combined(local[i], AnswerTo(local, ById(answers), i))
  {
    hide Completed, Left, AnswerTo, ById, DistinctAnswers;
    var all := IndexAnswers(answers);
    if all.None? { return Err(DuplicateAnswer); }
    NoneTaken(all.value, local);
    var left: map<Txid, Answer> := all.value;
    var seen, complete: seq<Signatures> := false, [];
    for i := 0 to |local|
      invariant Left(all.value, local, i, left)
      invariant seen <==> exists j :: 0 <= j < i && IsState(s, local[j])
      invariant forall j, k :: 0 <= j < k < i ==> !(IsState(s, local[j]) && IsState(s, local[k]))
      invariant |complete| == i
      invariant forall j :: 0 <= j < i ==>
                  Completed(s, local[j], AnswerTo(local, all.value, j)) && complete[j] == Combined(local[j], AnswerTo(local, all.value, j))
    {
      var f := local[i];
      NeedsVtxo(s, f, AnswerTo(local, all.value, i));
      if |f.tx.inputs| < 2 { return Err(NoVtxoInput); }
      if IsState(s, f) && seen { return Err(ManyStates); }
      seen := seen || IsState(s, f);
      LeftAfter(all.value, local, i, left);
      var answer := if f.tx.id in left then Some(left[f.tx.id]) else None;
      left := left - {f.tx.id};
      var one := CombineOne(s, f, answer);
      if one.Err? { return Err(one.error); }
      complete := complete + [one.value];
    }
    if !seen { return Err(NoState); }
    AllTaken(all.value, local, left);
    if left != map[] { return Err(UnexpectedAnswer); }
    return Ok(complete);
  }

  lemma NeedsVtxo(s: Signers, f: Forfeit, answer: Option<Answer>)
    ensures Completed(s, f, answer) ==> |f.tx.inputs| >= 2
  {}

  lemma NoneTaken(all: map<Txid, Answer>, local: seq<Forfeit>)
    ensures Left(all, local, 0, all)
  {}

  lemma AllTaken(all: map<Txid, Answer>, local: seq<Forfeit>, left: map<Txid, Answer>)
    requires Left(all, local, |local|, left)
    ensures left == map[] <==> forall id <- all :: Earlier(local, |local|, id)
  {
    if left != map[] { var id :| id in left; }
  }

  /** The slots a complete forfeit fills. */
  function Wanted(s: Signers, f: Forfeit): set<Slot> {
    (if IsState(s, f) then {(s.emulator, f.leaf)} else {}) + (if f.owned then {(s.owner, f.leaf)} else {})
  }

  /** The merged forfeit fills exactly the wanted slots, with valid signatures. */
  predicate Exact(s: Signers, f: Forfeit, answer: Option<Answer>) {
    && Combined(f, answer).Keys == Wanted(s, f)
    && forall slot <- Combined(f, answer) :: s.verify(f.tx, slot, Combined(f, answer)[slot])
  }

  /** One key acts in both roles on the forfeit of the state. */
  predicate SharesKey(s: Signers, f: Forfeit) { s.owner == s.emulator && IsState(s, f) && f.owned }

  /** With separate keys a completed forfeit carries exactly the signatures it needs, all valid, and none beside them. */
  lemma SeparateKeysAreExact(s: Signers, f: Forfeit, answer: Option<Answer>)
    requires Completed(s, f, answer) && !SharesKey(s, f)
    ensures Exact(s, f, answer)
  {
    var all := Combined(f, answer);
    assert Wanted(s, f) <= all.Keys && |all.Keys| == |all| == |Wanted(s, f)|;
    SameSlots(Wanted(s, f), all.Keys);
  }

  lemma SameSlots(a: set<Slot>, b: set<Slot>)
    requires a <= b && |a| == |b|
    ensures a == b
  {
    assert |b - a| == 0;
  }

  lemma DifferentSizes(a: set<Slot>, b: set<Slot>)
    requires |a| != |b|
    ensures a != b
  {}

  /** With a shared key the count leaves room for one more: whatever completes carries a signature of neither role. */
  lemma SharedKeyMiscounts(s: Signers, f: Forfeit, answer: Option<Answer>)
    requires Completed(s, f, answer) && SharesKey(s, f)
    ensures Combined(f, answer).Keys > Wanted(s, f) && !Exact(s, f, answer)
  {
    var all := Combined(f, answer);
    assert Wanted(s, f) == {(s.owner, f.leaf)} && |Wanted(s, f)| == 1;
    assert Wanted(s, f) <= all.Keys && |all.Keys| == |all| == 2;
    DifferentSizes(all.Keys, Wanted(s, f));
  }

  /** The shared key can sign, and our own part leaves room for exactly one other slot. */
  ghost predicate RoomForForeign(s: Signers, f: Forfeit) {
    && |f.signatures.Keys + {(s.owner, f.leaf)}| <= 2
    && exists signature :: s.verify(f.tx, (s.owner, f.leaf), signature)
  }

  /** Then some answer completes it, with a slot of neither role. */
  lemma ForeignCompletes(s: Signers, f: Forfeit) returns (answer: Answer)
    requires SharesKey(s, f) && RoomForForeign(s, f)
    ensures Completed(s, f, Some(answer))
  {
    var slot := (s.owner, f.leaf);
    var signature :| s.verify(f.tx, slot, signature);
    var foreign: Slot := (s.owner, f.leaf + 1);
    if other :| other in f.signatures.Keys && other != slot { foreign := other; }
    answer := Answer(f.tx, map[slot := signature, foreign := 0]);
    TwoSlots(f.signatures.Keys, slot, foreign);
    BothSlots(f.signatures, slot, signature, foreign);
  }

  lemma BothSlots(own: Signatures, slot: Slot, signature: Signature, foreign: Slot)
    requires slot != foreign && |own.Keys + {slot} + {foreign}| == 2
    ensures var all := own + map[slot := signature, foreign := 0];
            |all| == 2 && slot in all && all[slot] == signature
  {
    var all := own + map[slot := signature, foreign := 0];
    assert all.Keys == own.Keys + {slot} + {foreign};
    assert |all| == |all.Keys|;
  }

  lemma TwoSlots(own: set<Slot>, slot: Slot, foreign: Slot)
    requires |own + {slot}| <= 2 && foreign != slot && (foreign in own || own <= {slot})
    ensures |own + {slot} + {foreign}| == 2
  {
    if foreign in own {
      assert {slot, foreign} <= own + {slot};
      assert |{slot, foreign}| == 2;
      SubsetSize({slot, foreign}, own + {slot});
      SameSlots({slot, foreign}, own + {slot});
      assert own + {slot} + {foreign} == {slot, foreign};
    } else {
      assert own + {slot} + {foreign} == {slot, foreign};
    }
  }

  /**
   Over every answer the emulator can give, a completed forfeit is exact, save on a state forfeit whose owner and
   emulator are one key that can sign and on which our own part leaves room.
  */
  lemma OnlyWantedSignatures(s: Signers, f: Forfeit)
    ensures (forall answer :: Completed(s, f, answer) ==> Exact(s, f, answer)) <==> !(SharesKey(s, f) && RoomForForeign(s, f))
  {
    hide Exact;
    if SharesKey(s, f) && RoomForForeign(s, f) {
      var answer := ForeignCompletes(s, f);
      SharedKeyMiscounts(s, f, Some(answer));
    } else {
      forall answer | Completed(s, f, answer) ensures Exact(s, f, answer) {
        if SharesKey(s, f) { CompletedHasRoom(s, f, answer); } else { SeparateKeysAreExact(s, f, answer); }
      }
    }
  }

  lemma CompletedHasRoom(s: Signers, f: Forfeit, answer: Option<Answer>)
    requires Completed(s, f, answer) && SharesKey(s, f)
    ensures RoomForForeign(s, f)
  {
    var all := Combined(f, answer);
    assert s.verify(f.tx, (s.owner, f.leaf), all[(s.owner, f.leaf)]);
    assert f.signatures.Keys + {(s.owner, f.leaf)} <= all.Keys;
    SubsetSize(f.signatures.Keys + {(s.owner, f.leaf)}, all.Keys);
    assert |all.Keys| == |all|;
  }

  /** The contract builders refuse a leaf whose emulator key is one of its plain signers; no such leaf shares a key. */
  lemma BuildersExcludeSharing(s: Signers, f: Forfeit, signers: set<Key>)
    requires s.emulator !in signers && (f.owned <==> s.owner in signers)
    ensures !SharesKey(s, f)
    ensures forall answer :: Completed(s, f, answer) ==> Exact(s, f, answer)
  {
    OnlyWantedSignatures(s, f);
  }
}
