/**
 The stack program that rebuilds a player's six-leaf Taproot tree, what it hands to the key-tweak check,
 and why no other tree has the same root.
*/
module PlayerTemplate {
  import opened Common
  import opened ScriptNumber
  import opened ScriptMachine
  import opened PlayerRules
  import opened CovenantFragments

  /**
   Constants of one world. `after` gives the bytes of a multisig leaf that follow its first key, from the
   remaining keys; `exit` is the leaf of the unspendable exit path.
  */
  datatype Template = Template(
    operator: Digest, rollover: Digest,
    chop: Digest, renewal: Digest, withdraw: Digest, craft: Digest,
    nums: Digest, exit: Bytes, after: seq<Digest> -> Bytes)

  // ----- BIP341 hashes -----

  function TagPrefix(sha: Sha, tag: string): Bytes { sha(Ascii(tag)) + sha(Ascii(tag)) }

  /** Bitcoin's compact-size integer. */
  function CompactSize(n: nat): Bytes {
    if n < 253 then [n]
    else if n < 0x1_0000 then [253] + FixedLittleEndian(n, 2)
    else if n < 0x1_0000_0000 then [254] + FixedLittleEndian(n, 4)
    else [255] + FixedLittleEndian(n, 8)
  }

  function LeafPreimage(sha: Sha, script: Bytes): Bytes {
    TagPrefix(sha, "TapLeaf") + [0xc0] + CompactSize(|script|) + script
  }

  function SortedPair(a: Bytes, b: Bytes): Bytes { if LexLess(b, a) then b + a else a + b }

  function BranchPreimage(sha: Sha, a: Bytes, b: Bytes): Bytes {
    TagPrefix(sha, "TapBranch") + SortedPair(a, b)
  }

  datatype TapTree = Leaf(script: Bytes) | Node(left: TapTree, right: TapTree)

  function Root(sha: Sha, t: TapTree): Digest {
    match t
    case Leaf(script) => sha(LeafPreimage(sha, script))
    case Node(l, r) => sha(BranchPreimage(sha, Root(sha, l), Root(sha, r)))
  }

  function MultisigLeaf(t: Template, first: Bytes, rest: seq<Digest>): TapTree { Leaf([32] + first + t.after(rest)) }

  /** The canonical tree: chop, owner renewal, watchtower renewal, withdrawal, craft and exit. */
  function Canonical(t: Template, owner: Bytes): TapTree {
    Node(
      Node(MultisigLeaf(t, owner, [t.operator, t.craft]), Leaf(t.exit)),
      Node(Node(MultisigLeaf(t, owner, [t.operator, t.chop]), MultisigLeaf(t, owner, [t.operator, t.renewal])),
           Node(MultisigLeaf(t, t.operator, [t.rollover, t.renewal]), MultisigLeaf(t, owner, [t.operator, t.withdraw]))))
  }

  // ----- what these are, in the terms of the standard -----

  /** The queue of subtrees, the first two joined and put at the back, until one is left. */
  function Fifo(queue: seq<TapTree>): TapTree
    requires queue != []
    decreases |queue|
  {
    if |queue| == 1 then queue[0] else Fifo(queue[2..] + [Node(queue[0], queue[1])])
  }

  lemma FifoStep(a: TapTree, b: TapTree, rest: seq<TapTree>)
    ensures Fifo([a, b] + rest) == Fifo(rest + [Node(a, b)])
  {
    assert ([a, b] + rest)[2..] == rest;
  }

  /** The canonical tree is the first-in first-out tree of the six leaves, in the order a wallet lists them. */
  lemma CanonicalIsFifo(t: Template, owner: Bytes)
    ensures Canonical(t, owner) == Fifo([
              Leaf([32] + owner + t.after([t.operator, t.chop])), Leaf([32] + owner + t.after([t.operator, t.renewal])),
              Leaf([32] + t.operator + t.after([t.rollover, t.renewal])), Leaf([32] + owner + t.after([t.operator, t.withdraw])),
              Leaf([32] + owner + t.after([t.operator, t.craft])), Leaf(t.exit)])
  {
    hide Fifo;
    var chop, renewal := MultisigLeaf(t, owner, [t.operator, t.chop]), MultisigLeaf(t, owner, [t.operator, t.renewal]);
    var watchtower := MultisigLeaf(t, t.operator, [t.rollover, t.renewal]);
    var withdraw, craft := MultisigLeaf(t, owner, [t.operator, t.withdraw]), MultisigLeaf(t, owner, [t.operator, t.craft]);
    var a, b, c := Node(chop, renewal), Node(watchtower, withdraw), Node(craft, Leaf(t.exit));
    FifoStep(chop, renewal, [watchtower, withdraw, craft, Leaf(t.exit)]);
    FifoStep(watchtower, withdraw, [craft, Leaf(t.exit), a]);
    FifoStep(craft, Leaf(t.exit), [a, b]);
    FifoStep(a, b, [c]);
    FifoStep(c, Node(a, b), []);
    FifoEnds(Node(c, Node(a, b)));
    assert [chop, renewal] + [watchtower, withdraw, craft, Leaf(t.exit)] == [chop, renewal, watchtower, withdraw, craft, Leaf(t.exit)];
    assert [watchtower, withdraw, craft, Leaf(t.exit)] + [a] == [watchtower, withdraw] + [craft, Leaf(t.exit), a];
    assert [craft, Leaf(t.exit), a] + [b] == [craft, Leaf(t.exit)] + [a, b];
    assert [a, b] + [c] == [a, b, c] && [c] + [Node(a, b)] == [c, Node(a, b)] + [];
    assert [] + [Node(c, Node(a, b))] == [Node(c, Node(a, b))];
  }

  lemma FifoEnds(t: TapTree)
    ensures Fifo([t]) == t
  {}

  /**
   The hashes of BIP341 written out: leaf version 192 and the size in the fewest bytes before the script, children in
   byte order, and the two tags and the tag of the tweak each hashed once and put twice in front.
  */
  lemma HashesAreTagged(sha: Sha, script: Bytes, l: TapTree, r: TapTree, nums: Bytes, root: Bytes)
    ensures var tag := sha([84, 97, 112, 76, 101, 97, 102]); var n := |script|;
            && (n < 253 ==> Root(sha, Leaf(script)) == sha(tag + tag + [192] + [n] + script))
            && (253 <= n < 65536 ==> Root(sha, Leaf(script)) == sha(tag + tag + [192] + [253, n % 256, n / 256] + script))
    ensures var tag := sha([84, 97, 112, 66, 114, 97, 110, 99, 104]);
            var a: Bytes, b: Bytes := Root(sha, l), Root(sha, r);
            Root(sha, Node(l, r)) == sha(tag + tag + if BigEndian(a) <= BigEndian(b) then a + b else b + a)
    ensures var tag := sha([84, 97, 112, 84, 119, 101, 97, 107]);
            Tweak(sha, nums, root) == sha(tag + tag + nums + root)
  {
    hide BigEndian, LexLess;
    assert Ascii("TapLeaf") == [84, 97, 112, 76, 101, 97, 102];
    assert Ascii("TapBranch") == [84, 97, 112, 66, 114, 97, 110, 99, 104];
    assert Ascii("TapTweak") == [84, 97, 112, 84, 119, 101, 97, 107];
    SizeReads(|script|);
    NumberOrderIsLexicographic(Root(sha, r), Root(sha, l));
  }

  lemma SizeReads(n: nat)
    ensures n < 253 ==> CompactSize(n) == [n]
    ensures 253 <= n < 65536 ==> CompactSize(n) == [253, n % 256, n / 256]
  {
    if 253 <= n < 65536 {
      assert FixedLittleEndian(n, 2) == [n % 256] + FixedLittleEndian(n / 256, 1);
    }
  }

  // ----- number order is lexicographic order -----

  function BigEndian(b: Bytes): nat {
    if b == [] then 0 else b[0] * Pow256(|b| - 1) + BigEndian(b[1..])
  }

  /** A larger leading digit outweighs any remainder below one unit of it. */
  lemma LeadingDigits(x: nat, y: nat, unit: nat, below: nat, other: nat)
    requires x < y && below < unit
    ensures x * unit + below < y * unit + other
  {
    assert y * unit == (y - x - 1) * unit + x * unit + unit;
  }

  lemma {:induction false} BigEndianBound(b: Bytes)
    ensures BigEndian(b) < Pow256(|b|)
  {
    if b != [] {
      BigEndianBound(b[1..]);
      LeadingDigits(b[0], 256, Pow256(|b| - 1), BigEndian(b[1..]), 0);
    }
  }

  lemma {:induction false} LittleEndianSnoc(b: Bytes, last: byte)
    ensures LittleEndian(b + [last]) == LittleEndian(b) + last * Pow256(|b|)
  {
    var c := b + [last];
    if b == [] {
      assert c[1..] == [];
    } else {
      LittleEndianSnoc(b[1..], last);
      assert c[1..] == b[1..] + [last];
      var p := Pow256(|b| - 1);
      assert 256 * (last * p) == last * (256 * p);
    }
  }

  lemma {:induction false} ReversedIsBigEndian(b: Bytes)
    ensures LittleEndian(Reversed(b)) == BigEndian(b)
  {
    if b != [] {
      ReversedIsBigEndian(b[1..]);
      LittleEndianSnoc(Reversed(b[1..]), b[0]);
    }
  }

  /** Comparing reversed hashes as numbers is comparing them byte by byte. */
  lemma {:induction false} NumberOrderIsLexicographic(a: Bytes, b: Bytes)
    requires |a| == |b|
    ensures BigEndian(a) < BigEndian(b) <==> LexLess(a, b)
  {
    if a != [] {
      NumberOrderIsLexicographic(a[1..], b[1..]);
      BigEndianBound(a[1..]);
      BigEndianBound(b[1..]);
      var p := Pow256(|a| - 1);
      if a[0] < b[0] {
        LeadingDigits(a[0], b[0], p, BigEndian(a[1..]), BigEndian(b[1..]));
      } else if b[0] < a[0] {
        LeadingDigits(b[0], a[0], p, BigEndian(b[1..]), BigEndian(a[1..]));
      }
    }
  }

  // ----- the program -----

  function HashNumberCode(next: Code): Code { Ops4(ReverseBytes, PushBytes([0]), Cat, BinToNum, next) }

  lemma HashNumberRuns(hash: Bytes, next: Code, env: Env, vm: Vm)
    requires Live(vm)
    ensures Exec(HashNumberCode(next), env, Push(vm, hash)) == Exec(next, env, PushNumber(vm, BigEndian(hash)))
  {
    hide Exec, Step, Encode, Decode, Reversed;
    UnsignedDecode(Reversed(hash));
    ReversedIsBigEndian(hash);
    BytesRuns(ReverseBytes, Ops3(PushBytes([0]), Cat, BinToNum, next), env, Push(vm, hash));
    PushBytesRuns([0], Ops2(Cat, BinToNum, next), env, Push(vm, Reversed(hash)));
    BytesRuns(Cat, Cons(BinToNum, next), env, Push(Push(vm, Reversed(hash)), [0]));
    BytesRuns(BinToNum, next, env, Push(vm, Reversed(hash) + [0]));
  }

  /** `push_sorted_branch`. */
  function SortedBranchCode(sha: Sha, next: Code): Code {
    Cons(TwoDup, HashNumberCode(Cons(Swap, HashNumberCode(OrderCode(sha, next)))))
  }

  function OrderCode(sha: Sha, next: Code): Code {
    Ops4(LessThan, If, Swap, EndIf, BranchHashCode(sha, next))
  }

  function BranchHashCode(sha: Sha, next: Code): Code {
    Ops5(Cat, PushBytes(TagPrefix(sha, "TapBranch")), Swap, Cat, Sha256, next)
  }

  lemma OrderRuns(a: Digest, b: Digest, next: Code, env: Env, vm: Vm)
    requires Live(vm)
    ensures Exec(OrderCode(env.sha, next), env,
                 PushNumber(PushNumber(Push(Push(vm, a), b), BigEndian(b)), BigEndian(a)))
         == Exec(BranchHashCode(env.sha, next), env,
                 if LexLess(b, a) then Push(Push(vm, b), a) else Push(Push(vm, a), b))
  {
    hide Exec, Step, Encode, BigEndian, BranchHashCode;
    NumberOrderIsLexicographic(b, a);
    var both := Push(Push(vm, a), b);
    var hash := BranchHashCode(env.sha, next);
    var less := LexLess(b, a);
    NumericRuns(LessThan, BigEndian(b), BigEndian(a), Ops3(If, Swap, EndIf, hash), env, both);
    IfRuns(less, Ops2(Swap, EndIf, hash), env, both);
    if less {
      StackRuns(Swap, Cons(EndIf, hash), env, Enter(both, Taken));
      BranchRuns(EndIf, hash, env, Push(Push(Enter(vm, Taken), b), a));
    } else {
      SkippedRun(Ops2(Swap, EndIf, hash), 1, env, Enter(both, NotTaken));
      BranchRuns(EndIf, hash, env, Enter(both, NotTaken));
    }
  }

  /** Prepend a constant to the element on top and hash the whole. */
  lemma TaggedHashRuns(head: Bytes, tail: Bytes, next: Code, env: Env, vm: Vm)
    requires Live(vm)
    ensures Exec(Ops4(PushBytes(head), Swap, Cat, Sha256, next), env, Push(vm, tail))
         == Exec(next, env, Push(vm, env.sha(head + tail)))
  {
    hide Exec, Step;
    PushBytesRuns(head, Ops3(Swap, Cat, Sha256, next), env, Push(vm, tail));
    StackRuns(Swap, Ops2(Cat, Sha256, next), env, Push(Push(vm, tail), head));
    BytesRuns(Cat, Cons(Sha256, next), env, Push(Push(vm, head), tail));
    BytesRuns(Sha256, next, env, Push(vm, head + tail));
  }

  lemma BranchHashRuns(a: Digest, b: Digest, next: Code, env: Env, vm: Vm)
    requires Live(vm)
    ensures Exec(BranchHashCode(env.sha, next), env, Push(Push(vm, a), b))
         == Exec(next, env, Push(vm, env.sha(TagPrefix(env.sha, "TapBranch") + (a + b))))
  {
    hide Exec, Step, TagPrefix;
    var tag := TagPrefix(env.sha, "TapBranch");
    BytesRuns(Cat, Ops4(PushBytes(tag), Swap, Cat, Sha256, next), env, Push(Push(vm, a), b));
    TaggedHashRuns(tag, a + b, next, env, vm);
  }

  /** Two nodes become their sorted branch, whatever order they were pushed in. */
  lemma SortedBranchRuns(a: Digest, b: Digest, next: Code, env: Env, vm: Vm)
    requires Live(vm)
    ensures Exec(SortedBranchCode(env.sha, next), env, Push(Push(vm, a), b))
         == Exec(next, env, Push(vm, env.sha(BranchPreimage(env.sha, a, b))))
  {
    hide Exec, Step, Encode, TagPrefix, HashNumberCode, OrderCode, BigEndian, LexLess;
    var order := OrderCode(env.sha, next);
    var second := Cons(Swap, HashNumberCode(order));
    var both := Push(Push(vm, a), b);
    StackRuns(TwoDup, HashNumberCode(second), env, both);
    HashNumberRuns(b, second, env, Push(both, a));
    StackRuns(Swap, HashNumberCode(order), env, PushNumber(Push(both, a), BigEndian(b)));
    HashNumberRuns(a, order, env, PushNumber(both, BigEndian(b)));
    OrderRuns(a, b, next, env, vm);
    if LexLess(b, a) { BranchHashRuns(b, a, next, env, vm); } else { BranchHashRuns(a, b, next, env, vm); }
  }

  function OwnerLeafPrefix(sha: Sha, size: nat): Bytes {
    TagPrefix(sha, "TapLeaf") + [0xc0] + CompactSize(size) + [32]
  }

  /** `push_owner_leaf`: the owner stays on the altstack. */
  function OwnerLeafCode(sha: Sha, t: Template, emulator: Digest, next: Code): Code {
    var tail := t.after([t.operator, emulator]);
    Ops4(PushBytes(OwnerLeafPrefix(sha, 33 + |tail|)), FromAlt, Dup, ToAlt, Ops4(Cat, PushBytes(tail), Cat, Sha256, next))
  }

  function WithOwner(vm: Vm, owner: Bytes): (r: Vm)
    requires vm.Vm?
    ensures r.Vm?
  {
    vm.(alt := Cons(owner, vm.alt))
  }

  lemma LeafJoinRuns(t: Template, owner: Digest, emulator: Digest, next: Code, env: Env, vm: Vm)
    requires Live(vm)
    ensures var tail := t.after([t.operator, emulator]);
            Exec(Ops4(Cat, PushBytes(tail), Cat, Sha256, next), env,
                 Push(Push(vm, OwnerLeafPrefix(env.sha, 33 + |tail|)), owner))
            == Exec(next, env, Push(vm, Root(env.sha, MultisigLeaf(t, owner, [t.operator, emulator]))))
  {
    hide Exec, Step, TagPrefix, CompactSize;
    var tail := t.after([t.operator, emulator]);
    var prefix := OwnerLeafPrefix(env.sha, 33 + |tail|);
    assert prefix + owner + tail == LeafPreimage(env.sha, [32] + owner + tail);
    BytesRuns(Cat, Ops3(PushBytes(tail), Cat, Sha256, next), env, Push(Push(vm, prefix), owner));
    PushBytesRuns(tail, Ops2(Cat, Sha256, next), env, Push(vm, prefix + owner));
    BytesRuns(Cat, Cons(Sha256, next), env, Push(Push(vm, prefix + owner), tail));
    BytesRuns(Sha256, next, env, Push(vm, prefix + owner + tail));
  }

  lemma OwnerLeafRuns(t: Template, owner: Digest, emulator: Digest, next: Code, env: Env, vm: Vm)
    requires Live(vm)
    ensures Exec(OwnerLeafCode(env.sha, t, emulator, next), env, WithOwner(vm, owner))
         == Exec(next, env, Push(WithOwner(vm, owner), Root(env.sha, MultisigLeaf(t, owner, [t.operator, emulator]))))
  {
    hide Exec, Step, TagPrefix, CompactSize;
    var tail := t.after([t.operator, emulator]);
    var prefix := OwnerLeafPrefix(env.sha, 33 + |tail|);
    var join := Ops4(Cat, PushBytes(tail), Cat, Sha256, next);
    var headed := Push(vm, prefix);
    PushBytesRuns(prefix, Ops3(FromAlt, Dup, ToAlt, join), env, WithOwner(vm, owner));
    StackRuns(FromAlt, Ops2(Dup, ToAlt, join), env, WithOwner(headed, owner));
    StackRuns(Dup, Cons(ToAlt, join), env, Push(headed, owner));
    StackRuns(ToAlt, join, env, Push(Push(headed, owner), owner));
    LeafJoinRuns(t, owner, emulator, next, env, WithOwner(vm, owner));
  }

  /** `push_fixed_leaf`: the leaf hash is computed by the host. */
  function FixedLeafCode(sha: Sha, leaf: TapTree, next: Code): Code { Cons(PushBytes(Root(sha, leaf)), next) }

  function TreeCode(sha: Sha, t: Template, next: Code): Code {
    OwnerLeafCode(sha, t, t.chop, OwnerLeafCode(sha, t, t.renewal, SortedBranchCode(sha,
      FixedLeafCode(sha, MultisigLeaf(t, t.operator, [t.rollover, t.renewal]),
        OwnerLeafCode(sha, t, t.withdraw, SortedBranchCode(sha, LastBranchCode(sha, t, next)))))))
  }

  function LastBranchCode(sha: Sha, t: Template, next: Code): Code {
    OwnerLeafCode(sha, t, t.craft, FixedLeafCode(sha, Leaf(t.exit), SortedBranchCode(sha, JoinCode(sha, next))))
  }

  function JoinCode(sha: Sha, next: Code): Code {
    Ops2(Rot, Rot, SortedBranchCode(sha, SortedBranchCode(sha, next)))
  }

  lemma JoinRuns(a: Digest, b: Digest, c: Digest, next: Code, env: Env, vm: Vm)
    requires Live(vm)
    ensures Exec(JoinCode(env.sha, next), env, Push(Push(Push(vm, a), b), c))
         == Exec(next, env, Push(vm, env.sha(BranchPreimage(env.sha, c, env.sha(BranchPreimage(env.sha, a, b))))))
  {
    hide Exec, Step, SortedBranchCode, BranchPreimage;
    var outer := SortedBranchCode(env.sha, next);
    var inner := SortedBranchCode(env.sha, outer);
    StackRuns(Rot, Cons(Rot, inner), env, Push(Push(Push(vm, a), b), c));
    StackRuns(Rot, inner, env, Push(Push(Push(vm, b), c), a));
    SortedBranchRuns(a, b, outer, env, Push(vm, c));
    SortedBranchRuns(c, env.sha(BranchPreimage(env.sha, a, b)), next, env, vm);
  }

  /** The leaves and branches leave exactly the canonical root. */
  lemma TreeRuns(t: Template, owner: Digest, next: Code, env: Env, vm: Vm)
    requires Live(vm)
    ensures Exec(TreeCode(env.sha, t, next), env, WithOwner(vm, owner))
         == Exec(next, env, Push(WithOwner(vm, owner), Root(env.sha, Canonical(t, owner))))
  {
    hide Exec, Step, SortedBranchCode, OwnerLeafCode, JoinCode,
         BranchPreimage, LeafPreimage;
    var sha := env.sha;
    var start := WithOwner(vm, owner);
    var chop := MultisigLeaf(t, owner, [t.operator, t.chop]);
    var renewal := MultisigLeaf(t, owner, [t.operator, t.renewal]);
    var watchtower := MultisigLeaf(t, t.operator, [t.rollover, t.renewal]);
    var withdraw := MultisigLeaf(t, owner, [t.operator, t.withdraw]);
    var craft := MultisigLeaf(t, owner, [t.operator, t.craft]);
    var a, b, c := Node(chop, renewal), Node(watchtower, withdraw), Node(craft, Leaf(t.exit));

    var join := JoinCode(sha, next);
    var last := LastBranchCode(sha, t, join);
    var third := LastBranchCode(sha, t, next);
    var second := FixedLeafCode(sha, watchtower, OwnerLeafCode(sha, t, t.withdraw, SortedBranchCode(sha, third)));
    OwnerLeafRuns(t, owner, t.chop, OwnerLeafCode(sha, t, t.renewal, SortedBranchCode(sha, second)), env, start.(alt := vm.alt));
    OwnerLeafRuns(t, owner, t.renewal, SortedBranchCode(sha, second), env, Push(vm, Root(sha, chop)));
    SortedBranchRuns(Root(sha, chop), Root(sha, renewal), second, env, start);
    var withA := Push(vm, Root(sha, a));
    PushBytesRuns(Root(sha, watchtower), OwnerLeafCode(sha, t, t.withdraw, SortedBranchCode(sha, third)), env, WithOwner(withA, owner));
    OwnerLeafRuns(t, owner, t.withdraw, SortedBranchCode(sha, third), env, Push(withA, Root(sha, watchtower)));
    SortedBranchRuns(Root(sha, watchtower), Root(sha, withdraw), third, env, WithOwner(withA, owner));
    var withB := Push(withA, Root(sha, b));
    var fixed := FixedLeafCode(sha, Leaf(t.exit), SortedBranchCode(sha, join));
    OwnerLeafRuns(t, owner, t.craft, fixed, env, withB);
    PushBytesRuns(Root(sha, Leaf(t.exit)), SortedBranchCode(sha, join), env, Push(WithOwner(withB, owner), Root(sha, craft)));
    SortedBranchRuns(Root(sha, craft), Root(sha, Leaf(t.exit)), join, env, WithOwner(withB, owner));
    JoinRuns(Root(sha, a), Root(sha, b), Root(sha, c), next, env, start);
  }

  // ----- authentication of input zero -----

  function PrefixCode(next: Code): Code {
    Ops6(Size, PushInt(1), EqualVerify, Dup, BinToNum, Dup, PrefixRangeCode(next))
  }

  function PrefixRangeCode(next: Code): Code {
    Ops6(PushInt(2), GreaterThanOrEqual, Swap, PushInt(3), LessThanOrEqual, BoolAnd, Cons(Verify, next))
  }

  predicate PointPrefix(prefix: Bytes) { prefix == [2] || prefix == [3] }

  lemma PrefixRangeRuns(n: int, next: Code, env: Env, vm: Vm)
    requires Live(vm)
    ensures Exec(PrefixRangeCode(next), env, PushNumber(PushNumber(vm, n), n))
         == Exec(next, env, if 2 <= n <= 3 then vm else Halted)
  {
    hide Exec, Step, Encode;
    var both := Ops2(BoolAnd, Verify, next);
    ConstantRuns(GreaterThanOrEqual, n, 2, Ops3(Swap, PushInt(3), LessThanOrEqual, both), env, PushNumber(vm, n));
    StackRuns(Swap, Ops2(PushInt(3), LessThanOrEqual, both), env, PushNumber(PushNumber(vm, n), Bit(n >= 2)));
    ConstantRuns(LessThanOrEqual, n, 3, both, env, PushNumber(vm, Bit(n >= 2)));
    NumericRuns(BoolAnd, Bit(n >= 2), Bit(n <= 3), Cons(Verify, next), env, vm);
    VerifyRuns(2 <= n <= 3, next, env, vm);
  }

  lemma PrefixRuns(prefix: Bytes, next: Code, env: Env, vm: Vm)
    requires Live(vm)
    ensures Exec(PrefixCode(next), env, Push(vm, prefix))
         == Exec(next, env, if PointPrefix(prefix) then Push(vm, prefix) else Halted)
  {
    hide Exec, Step, Encode, PrefixRangeCode;
    var range := PrefixRangeCode(next);
    var number := Ops3(Dup, BinToNum, Dup, range);
    var start := Push(vm, prefix);
    ExecHalted(number, env);
    ExecHalted(next, env);
    WidthRuns(1, prefix, number, env, vm);
    if |prefix| == 1 {
      StackRuns(Dup, Ops2(BinToNum, Dup, range), env, start);
      BytesRuns(BinToNum, Cons(Dup, range), env, Push(start, prefix));
      StackRuns(Dup, range, env, PushNumber(start, Decode(prefix)));
      PrefixRangeRuns(Decode(prefix), next, env, start);
    }
  }

  /** The owner must not be one of the other signers. */
  function DistinctCode(signers: seq<Digest>, next: Code): Code {
    if signers == [] then next
    else Ops5(Dup, PushBytes(signers[0]), Equal, Not, Verify, DistinctCode(signers[1..], next))
  }

  lemma DifferentRuns(signer: Digest, owner: Bytes, next: Code, env: Env, vm: Vm)
    requires Live(vm)
    ensures Exec(Ops5(Dup, PushBytes(signer), Equal, Not, Verify, next), env, Push(vm, owner))
         == Exec(next, env, if owner == signer then Halted else Push(vm, owner))
  {
    hide Exec, Step, Encode, Decode, Minimal;
    Encodings();
    var check := Ops2(Not, Verify, next);
    var start := Push(vm, owner);
    StackRuns(Dup, Ops2(PushBytes(signer), Equal, check), env, start);
    PushBytesRuns(signer, Cons(Equal, check), env, Push(start, owner));
    EqualBytesRuns(owner, signer, check, env, start);
    BytesRuns(Not, Cons(Verify, next), env, PushNumber(start, Bit(owner == signer)));
    VerifyRuns(owner != signer, next, env, start);
  }

  lemma EqualBytesRuns(a: Bytes, b: Bytes, next: Code, env: Env, vm: Vm)
    requires Live(vm)
    ensures Exec(Cons(Equal, next), env, Push(Push(vm, a), b)) == Exec(next, env, PushNumber(vm, Bit(a == b)))
  {
    hide Exec, Encode;
    Unfolding(1, Cons(Equal, next), env, Push(Push(vm, a), b));
  }

  lemma {:induction false} DistinctRuns(signers: seq<Digest>, owner: Bytes, next: Code, env: Env, vm: Vm)
    requires Live(vm)
    ensures Exec(DistinctCode(signers, next), env, Push(vm, owner))
         == Exec(next, env, if owner in signers then Halted else Push(vm, owner))
  {
    hide Exec, Step, Encode;
    if signers != [] {
      var rest := DistinctCode(signers[1..], next);
      DifferentRuns(signers[0], owner, rest, env, vm);
      DistinctRuns(signers[1..], owner, next, env, vm);
      ExecHalted(rest, env);
      ExecHalted(next, env);
      assert owner in signers <==> owner == signers[0] || owner in signers[1..];
    }
  }

  function Signers(t: Template): seq<Digest> {
    [t.operator, t.rollover, t.chop, t.renewal, t.withdraw, t.craft]
  }

  /** `push_player_template`. */
  function TemplateCode(sha: Sha, t: Template, next: Code): Code {
    PrefixCode(Cons(Swap, WidthCode(32, DistinctCode(Signers(t), Cons(ToAlt, TreeCode(sha, t, TweakCode(sha, t, next)))))))
  }

  function TweakCode(sha: Sha, t: Template, next: Code): Code {
    Ops6(PushBytes(TagPrefix(sha, "TapTweak") + t.nums), Swap, Cat, Sha256, PushBytes(t.nums), Swap, PointCode(next))
  }

  function PointCode(next: Code): Code {
    Ops4(PushInt(2), Roll, PushInt(0), InspectInputScriptPubKey, Ops4(PushInt(1), EqualVerify, Cat, TweakVerify, Ops2(FromAlt, Drop, next)))
  }

  /** The TapTweak of the unspendable internal key and a root. */
  function Tweak(sha: Sha, nums: Bytes, root: Bytes): Digest { sha(TagPrefix(sha, "TapTweak") + nums + root) }

  lemma ProgramRuns(next: Code, env: Env, vm: Vm)
    requires Live(vm)
    ensures Exec(Ops2(PushInt(0), InspectInputScriptPubKey, next), env, vm)
         == Exec(next, env, if 0 in env.inputPrograms then PushNumber(Push(vm, env.inputPrograms[0]), 1) else Halted)
  {
    hide Exec, Encode, Decode, Minimal, StackStep, CheckStep, BytesStep, AssetStep, Binary;
    Encodings();
    Unfolding(2, Ops2(PushInt(0), InspectInputScriptPubKey, next), env, vm);
  }

  lemma TweakVerifyRuns(key: Bytes, tweak: Bytes, prefix: Bytes, program: Bytes, owner: Bytes, next: Code, env: Env, vm: Vm)
    requires Live(vm)
    ensures Exec(Ops4(PushInt(1), EqualVerify, Cat, TweakVerify, Ops2(FromAlt, Drop, next)), env,
                 PushNumber(Push(Push(Push(Push(WithOwner(vm, owner), key), tweak), prefix), program), 1))
         == Exec(next, env, if env.tweaks(key, tweak, prefix + program) then vm else Halted)
  {
    hide Exec, Step, Encode;
    var drop := Ops2(FromAlt, Drop, next);
    var held := WithOwner(vm, owner);
    var operands := Push(Push(held, key), tweak);
    var point := prefix + program;
    PushIntRuns(1, Ops3(EqualVerify, Cat, TweakVerify, drop), env, PushNumber(Push(Push(operands, prefix), program), 1));
    EqualVerifyRuns(1, 1, Ops2(Cat, TweakVerify, drop), env, Push(Push(operands, prefix), program));
    BytesRuns(Cat, Cons(TweakVerify, drop), env, Push(Push(operands, prefix), program));
    TweakStepRuns(key, tweak, point, drop, env, held);
    ExecHalted(drop, env);
    ExecHalted(next, env);
    StackRuns(FromAlt, Cons(Drop, next), env, held);
    StackRuns(Drop, next, env, Push(vm, owner));
  }

  lemma TweakStepRuns(key: Bytes, tweak: Bytes, point: Bytes, next: Code, env: Env, vm: Vm)
    requires Live(vm)
    ensures Exec(Cons(TweakVerify, next), env, Push(Push(Push(vm, key), tweak), point))
         == Exec(next, env, if env.tweaks(key, tweak, point) then vm else Halted)
  {
    hide Exec, Encode;
    Unfolding(1, Cons(TweakVerify, next), env, Push(Push(Push(vm, key), tweak), point));
  }

  lemma PointRuns(key: Bytes, tweak: Bytes, prefix: Bytes, owner: Bytes, next: Code, env: Env, vm: Vm)
    requires Live(vm)
    ensures Exec(PointCode(next), env, Push(Push(Push(WithOwner(vm, owner), prefix), key), tweak))
         == Exec(next, env, if 0 in env.inputPrograms && env.tweaks(key, tweak, prefix + env.inputPrograms[0])
                            then vm else Halted)
  {
    hide Exec, Step, Encode, Decode;
    Encodings();
    var held := WithOwner(vm, owner);
    var start := Push(Push(Push(held, prefix), key), tweak);
    var moved := Push(Push(Push(held, key), tweak), prefix);
    var verify := Ops4(PushInt(1), EqualVerify, Cat, TweakVerify, Ops2(FromAlt, Drop, next));
    var inspect := Ops2(PushInt(0), InspectInputScriptPubKey, verify);
    assert TakeAt(start.main.rest, 1) == Some((prefix, Push(held, key).main));
    assert TakeAt(start.main, 2) == Some((prefix, Push(Push(held, key), tweak).main));
    PushIntRuns(2, Cons(Roll, inspect), env, start);
    StackRuns(Roll, inspect, env, PushNumber(start, 2));
    ProgramRuns(verify, env, moved);
    if 0 in env.inputPrograms {
      TweakVerifyRuns(key, tweak, prefix, env.inputPrograms[0], owner, next, env, vm);
    } else {
      ExecHalted(verify, env);
      ExecHalted(next, env);
    }
  }

  lemma TweakRuns(t: Template, root: Digest, prefix: Bytes, owner: Bytes, next: Code, env: Env, vm: Vm)
    requires Live(vm)
    ensures Exec(TweakCode(env.sha, t, next), env, Push(Push(WithOwner(vm, owner), prefix), root))
         == Exec(next, env,
              if 0 in env.inputPrograms && env.tweaks(t.nums, Tweak(env.sha, t.nums, root), prefix + env.inputPrograms[0])
              then vm else Halted)
  {
    hide Exec, Step, TagPrefix, PointCode;
    var head := TagPrefix(env.sha, "TapTweak") + t.nums;
    var point := PointCode(next);
    var held := Push(WithOwner(vm, owner), prefix);
    var tweak := Tweak(env.sha, t.nums, root);
    TaggedHashRuns(head, root, Ops2(PushBytes(t.nums), Swap, point), env, held);
    PushBytesRuns(t.nums, Cons(Swap, point), env, Push(held, tweak));
    StackRuns(Swap, point, env, Push(Push(held, tweak), t.nums));
    PointRuns(t.nums, tweak, prefix, owner, next, env, vm);
  }

  /** What the template demands of its two witness elements and of the program of input zero. */
  predicate Authentic(env: Env, t: Template, owner: Bytes, prefix: Bytes) {
    && PointPrefix(prefix) && |owner| == 32 && owner !in Signers(t)
    && 0 in env.inputPrograms
    && env.tweaks(t.nums, Tweak(env.sha, t.nums, Root(env.sha, Canonical(t, owner))), prefix + env.inputPrograms[0])
  }

  /**
   The template program consumes its witness and runs on exactly when input zero is the key tweak, under
   the unspendable internal key, of the canonical six-leaf tree of that owner.
  */
  lemma TemplateAuthenticates(t: Template, owner: Bytes, prefix: Bytes, next: Code, env: Env, vm: Vm)
    requires Live(vm)
    ensures Exec(TemplateCode(env.sha, t, next), env, Push(Push(vm, owner), prefix))
         == Exec(next, env, if Authentic(env, t, owner, prefix) then vm else Halted)
    ensures Authentic(env, t, owner, prefix) <==>
              && prefix in {[2], [3]} && |owner| == 32
              && owner !in {t.operator, t.rollover, t.chop, t.renewal, t.withdraw, t.craft} && 0 in env.inputPrograms
              && env.tweaks(t.nums, Tweak(env.sha, t.nums, Root(env.sha, Canonical(t, owner))), prefix + env.inputPrograms[0])
  {
    hide Exec, Step, PrefixCode, WidthCode, DistinctCode, TreeCode, TweakCode, Canonical, Tweak;
    var tweak := TweakCode(env.sha, t, next);
    var tree := TreeCode(env.sha, t, tweak);
    var distinct := DistinctCode(Signers(t), Cons(ToAlt, tree));
    var width := WidthCode(32, distinct);
    var held := Push(vm, prefix);
    PrefixRuns(prefix, Cons(Swap, width), env, Push(vm, owner));
    StackRuns(Swap, width, env, Push(Push(vm, owner), prefix));
    WidthRuns(32, owner, distinct, env, held);
    DistinctRuns(Signers(t), owner, Cons(ToAlt, tree), env, held);
    StackRuns(ToAlt, tree, env, Push(held, owner));
    ExecHalted(Cons(Swap, width), env);
    ExecHalted(distinct, env);
    ExecHalted(Cons(ToAlt, tree), env);
    ExecHalted(next, env);
    if |owner| == 32 {
      TreeRuns(t, owner, tweak, env, held);
      TweakRuns(t, Root(env.sha, Canonical(t, owner)), prefix, owner, next, env, vm);
    }
  }

  // ----- no other tree has that root -----

  /** Equal up to the order of children, which the sorted branch forgets. */
  predicate Same(s: TapTree, t: TapTree) {
    match (s, t)
    case (Leaf(a), Leaf(b)) => a == b
    case (Node(a, b), Node(c, d)) => (Same(a, c) && Same(b, d)) || (Same(a, d) && Same(b, c))
    case _ => false
  }

  function Leaves(t: TapTree): multiset<Bytes> {
    match t case Leaf(script) => multiset{script} case Node(l, r) => Leaves(l) + Leaves(r)
  }

  /** Every byte string hashed to compute a root, tags included. */
  function Preimages(sha: Sha, t: TapTree): set<Bytes> {
    match t
    case Leaf(script) => {Ascii("TapLeaf"), LeafPreimage(sha, script)}
    case Node(l, r) =>
      {Ascii("TapBranch"), BranchPreimage(sha, Root(sha, l), Root(sha, r))} + Preimages(sha, l) + Preimages(sha, r)
  }

  predicate Collides(sha: Sha, s: set<Bytes>, t: set<Bytes>) {
    exists x, y :: x in s && y in t && x != y && sha(x) == sha(y)
  }

  /** Compact sizes are prefix-free enough: the whole length fixes the script length. */
  lemma LeafPreimageInjective(sha: Sha, a: Bytes, b: Bytes)
    requires LeafPreimage(sha, a) == LeafPreimage(sha, b)
    ensures a == b
  {
    var head := TagPrefix(sha, "TapLeaf") + [0xc0];
    var x, y := CompactSize(|a|) + a, CompactSize(|b|) + b;
    assert LeafPreimage(sha, a) == head + x && LeafPreimage(sha, b) == head + y;
    assert x == (head + x)[|head|..] && y == (head + y)[|head|..];
    SizesIncrease(|a|, |b|);
    SizesIncrease(|b|, |a|);
    assert |a| == |b|;
    assert a == x[|CompactSize(|a|)|..] && b == y[|CompactSize(|b|)|..];
  }

  lemma SizesIncrease(m: nat, n: nat)
    ensures m < n ==> |CompactSize(m)| + m < |CompactSize(n)| + n
  {}

  lemma BranchPreimageSplits(sha: Sha, a: Digest, b: Digest, c: Digest, d: Digest)
    requires BranchPreimage(sha, a, b) == BranchPreimage(sha, c, d)
    ensures (a == c && b == d) || (a == d && b == c)
  {
    var head := TagPrefix(sha, "TapBranch");
    var x, y := SortedPair(a, b), SortedPair(c, d);
    assert x == (head + x)[|head|..] && y == (head + y)[|head|..];
    assert x[..32] == y[..32] && x[32..] == y[32..];
    assert (a + b)[..32] == a && (a + b)[32..] == b && (b + a)[..32] == b && (b + a)[32..] == a;
    assert (c + d)[..32] == c && (c + d)[32..] == d && (d + c)[..32] == d && (d + c)[32..] == c;
  }

  lemma LeafIsNotBranch(sha: Sha, script: Bytes, a: Digest, b: Digest)
    requires LeafPreimage(sha, script) == BranchPreimage(sha, a, b)
    ensures sha(Ascii("TapLeaf")) == sha(Ascii("TapBranch")) && Ascii("TapLeaf") != Ascii("TapBranch")
  {
    var leaf, branch := LeafPreimage(sha, script), BranchPreimage(sha, a, b);
    assert leaf[..32] == sha(Ascii("TapLeaf")) && branch[..32] == sha(Ascii("TapBranch"));
    assert |Ascii("TapLeaf")| == 7 && |Ascii("TapBranch")| == 9;
  }

  /** Two trees with one root are the same tree, or two of the strings hashed for them collide. */
  lemma {:induction false} RootDeterminesTree(sha: Sha, s: TapTree, t: TapTree)
    requires Root(sha, s) == Root(sha, t)
    ensures Same(s, t) || Collides(sha, Preimages(sha, s), Preimages(sha, t))
  {
    hide LeafPreimage, BranchPreimage, Ascii;
    match (s, t) {
      case (Leaf(a), Leaf(b)) =>
        if LeafPreimage(sha, a) == LeafPreimage(sha, b) { LeafPreimageInjective(sha, a, b); }
      case (Leaf(a), Node(c, d)) =>
        if LeafPreimage(sha, a) == BranchPreimage(sha, Root(sha, c), Root(sha, d)) {
          LeafIsNotBranch(sha, a, Root(sha, c), Root(sha, d));
        }
      case (Node(a, b), Leaf(d)) =>
        if LeafPreimage(sha, d) == BranchPreimage(sha, Root(sha, a), Root(sha, b)) {
          LeafIsNotBranch(sha, d, Root(sha, a), Root(sha, b));
        }
      case (Node(a, b), Node(c, d)) =>
        if BranchPreimage(sha, Root(sha, a), Root(sha, b)) == BranchPreimage(sha, Root(sha, c), Root(sha, d)) {
          BranchPreimageSplits(sha, Root(sha, a), Root(sha, b), Root(sha, c), Root(sha, d));
          if Root(sha, a) == Root(sha, c) && Root(sha, b) == Root(sha, d) {
            RootDeterminesTree(sha, a, c);
            RootDeterminesTree(sha, b, d);
          } else {
            RootDeterminesTree(sha, a, d);
            RootDeterminesTree(sha, b, c);
          }
        }
    }
  }

  lemma {:induction false} SameTreesSameLeaves(s: TapTree, t: TapTree)
    requires Same(s, t)
    ensures Leaves(s) == Leaves(t)
  {
    match (s, t) {
      case (Leaf(_), Leaf(_)) =>
      case (Node(a, b), Node(c, d)) =>
        if Same(a, c) && Same(b, d) {
          SameTreesSameLeaves(a, c);
          SameTreesSameLeaves(b, d);
        } else {
          SameTreesSameLeaves(a, d);
          SameTreesSameLeaves(b, c);
        }
    }
  }

  lemma CanonicalLeaves(t: Template, owner: Bytes)
    ensures Leaves(Canonical(t, owner)) ==
              multiset{[32] + owner + t.after([t.operator, t.craft]), t.exit}
              + (multiset{[32] + owner + t.after([t.operator, t.chop]), [32] + owner + t.after([t.operator, t.renewal])}
                 + multiset{[32] + t.operator + t.after([t.rollover, t.renewal]), [32] + owner + t.after([t.operator, t.withdraw])})
  {
    var tree := Canonical(t, owner);
    TwoLeaves([32] + owner + t.after([t.operator, t.craft]), t.exit);
    TwoLeaves([32] + owner + t.after([t.operator, t.chop]), [32] + owner + t.after([t.operator, t.renewal]));
    TwoLeaves([32] + t.operator + t.after([t.rollover, t.renewal]), [32] + owner + t.after([t.operator, t.withdraw]));
    BothSides(tree.right.left, tree.right.right);
    BothSides(tree.left, tree.right);
    hide Leaves;
  }

  lemma BothSides(l: TapTree, r: TapTree)
    ensures Leaves(Node(l, r)) == Leaves(l) + Leaves(r)
  {}

  lemma TwoLeaves(a: Bytes, b: Bytes)
    ensures Leaves(Node(Leaf(a), Leaf(b))) == multiset{a, b}
  {}

  /** A tree with the root the template authenticates has the six canonical leaves and no other. */
  lemma OnlyCanonicalLeaves(sha: Sha, t: Template, owner: Bytes, tree: TapTree)
    requires Root(sha, tree) == Root(sha, Canonical(t, owner))
    ensures Leaves(tree) ==
              multiset{[32] + owner + t.after([t.operator, t.craft]), t.exit}
              + (multiset{[32] + owner + t.after([t.operator, t.chop]), [32] + owner + t.after([t.operator, t.renewal])}
                 + multiset{[32] + t.operator + t.after([t.rollover, t.renewal]), [32] + owner + t.after([t.operator, t.withdraw])})
         || Collides(sha, Preimages(sha, tree), Preimages(sha, Canonical(t, owner)))
  {
    hide Root, Preimages, Canonical, Leaves;
    CanonicalLeaves(t, owner);
    RootDeterminesTree(sha, tree, Canonical(t, owner));
    if Same(tree, Canonical(t, owner)) { SameTreesSameLeaves(tree, Canonical(t, owner)); }
  }

  function TweakPreimage(sha: Sha, t: Template, owner: Bytes): Bytes {
    TagPrefix(sha, "TapTweak") + t.nums + Root(sha, Canonical(t, owner))
  }

  function Hashed(sha: Sha, t: Template, owner: Bytes): set<Bytes> {
    Preimages(sha, Canonical(t, owner)) + {TweakPreimage(sha, t, owner)}
  }

  lemma SameLeafSameOwner(t: Template, a: Bytes, b: Bytes, rest: seq<Digest>)
    requires |a| == |b| && MultisigLeaf(t, a, rest) == MultisigLeaf(t, b, rest)
    ensures a == b
  {
    var x, y := [32] + a + t.after(rest), [32] + b + t.after(rest);
    assert x[1..1 + |a|] == a && y[1..1 + |b|] == b;
  }

  lemma SameNodes(a: TapTree, b: TapTree, c: TapTree, d: TapTree)
    ensures Same(Node(a, b), Node(c, d)) <==> (Same(a, c) && Same(b, d)) || (Same(a, d) && Same(b, c))
  {}

  lemma SameLeaf(s: TapTree, t: TapTree)
    requires s.Leaf?
    ensures Same(s, t) <==> s == t
  {}

  /** However the children are ordered, the craft leaf can only meet the craft leaf. */
  lemma CanonicalNamesOwner(t: Template, a: Bytes, b: Bytes)
    requires |a| == |b| && Same(Canonical(t, a), Canonical(t, b))
    ensures a == b
  {
    hide Same;
    var rest := [t.operator, t.craft];
    var x, y, exit := MultisigLeaf(t, a, rest), MultisigLeaf(t, b, rest), Leaf(t.exit);
    var s, u := Canonical(t, a), Canonical(t, b);
    SameNodes(s.left, s.right, u.left, u.right);
    SameNodes(x, exit, y, exit);
    SameNodes(x, exit, u.right.left, u.right.right);
    SameLeaf(x, u.right.left);
    SameLeaf(x, u.right.right);
    SameLeaf(x, y);
    SameLeaf(x, exit);
    SameLeaf(exit, y);
    SameLeafSameOwner(t, a, b, rest);
  }

  /** Two different tweaks of the internal key land on the program of input zero, up to the sign of the point. */
  predicate DoubleTweak(env: Env, t: Template, s: Bytes, p: Bytes, u: Bytes, q: Bytes) {
    && 0 in env.inputPrograms && s != u
    && env.tweaks(t.nums, s, p + env.inputPrograms[0]) && env.tweaks(t.nums, u, q + env.inputPrograms[0])
  }

  /**
   Input zero names one owner: if the template accepts two witnesses for it, the owners are equal, or two of
   the strings hashed for them collide, or one point has two tweaks.
  */
  lemma OneOwner(env: Env, t: Template, a: Bytes, p: Bytes, b: Bytes, q: Bytes)
    requires Authentic(env, t, a, p) && Authentic(env, t, b, q)
    ensures || a == b
            || Collides(env.sha, Hashed(env.sha, t, a), Hashed(env.sha, t, b))
            || DoubleTweak(env, t, Tweak(env.sha, t.nums, Root(env.sha, Canonical(t, a))), p,
                           Tweak(env.sha, t.nums, Root(env.sha, Canonical(t, b))), q)
  {
    hide Canonical, Preimages, Root, TagPrefix, Same;
    var sha := env.sha;
    var s, u := Canonical(t, a), Canonical(t, b);
    if Root(sha, s) == Root(sha, u) {
      RootDeterminesTree(sha, s, u);
      if Same(s, u) { CanonicalNamesOwner(t, a, b); } else { MoreCollides(env, t, a, b); }
    } else if sha(TweakPreimage(sha, t, a)) == sha(TweakPreimage(sha, t, b)) {
      var head := TagPrefix(sha, "TapTweak") + t.nums;
      assert (head + Root(sha, s))[|head|..] == Root(sha, s) && (head + Root(sha, u))[|head|..] == Root(sha, u);
      assert TweakPreimage(sha, t, a) in Hashed(sha, t, a) && TweakPreimage(sha, t, b) in Hashed(sha, t, b);
    }
  }

  lemma MoreCollides(env: Env, t: Template, a: Bytes, b: Bytes)
    requires Collides(env.sha, Preimages(env.sha, Canonical(t, a)), Preimages(env.sha, Canonical(t, b)))
    ensures Collides(env.sha, Hashed(env.sha, t, a), Hashed(env.sha, t, b))
  {
    hide Preimages, Canonical, TweakPreimage;
    var sha := env.sha;
    var x, y :| x in Preimages(sha, Canonical(t, a)) && y in Preimages(sha, Canonical(t, b)) && x != y && sha(x) == sha(y);
    assert x in Hashed(sha, t, a) && y in Hashed(sha, t, b);
  }
}
