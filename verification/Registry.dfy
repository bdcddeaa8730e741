/**
 The player registry under concurrency. Requests and workers read snapshots, wait, and come back; each write
 is one atomic step under the lock. What holds of every interleaving of such steps.
*/
module Registry {
  import opened Common

  const ACTION_CLOCK_SKEW_MS := 300_000
  const MAX_REGISTERED_PLAYERS := 10_000

  type Player = string

  /** Verified public state; only the fields the server decides on, and the rest as one opaque value. */
  datatype Verified = Verified(active: bool, expiresAt: Option<int>, marginSeconds: int, registeredAt: int, updatedAt: int, rest: nat)

  datatype Entry = Entry(
    owner: string, signature: string, registeredAt: int,
    delegated: bool, delegatedAtMs: U64, state: Option<Verified>)
  {
    predicate SameRegistration(snapshot: Entry) {
      owner == snapshot.owner && signature == snapshot.signature && registeredAt == snapshot.registeredAt
    }

    /** `renewal_due`: consent, an active state, and a lifetime inside its rollover margin unless forced. */
    predicate RenewalDue(now: int, force: bool) {
      && delegated && state.Some? && state.value.active
      && (force || (state.value.expiresAt.Some?
                    && 0 < state.value.expiresAt.value - now < state.value.marginSeconds))
    }

    predicate QueuedAuthorized(queued: Entry, now: int, force: bool) {
      SameRegistration(queued) && delegatedAtMs == queued.delegatedAtMs && RenewalDue(now, force)
    }
  }

  /** A late verification is used only on the very entry it was read from. */
  function Apply(e: Entry, snapshot: Entry, verified: Option<Verified>, now: int): (Entry, bool) {
    if !e.SameRegistration(snapshot) || e.state != snapshot.state then (e, false)
    else if verified.Some? then (e.(state := verified), true)
    else if e.state.Some? then (e.(state := Some(e.state.value.(active := false, updatedAt := now))), true)
    else (e, true)
  }

  type ActionKey = (string, Player)

  datatype State = State(players: map<Player, Entry>, actionTimes: map<ActionKey, U64>)

  const EMPTY := State(map[], map[])

  /** One atomic write. Snapshots are whatever a worker read earlier. */
  datatype Step =
    | Gate(action: string, player: Player, timestampMs: U64, nowMs: U64, intervalMs: U64)
    | Delegate(player: Player, timestampMs: U64, enabled: bool)
    | Merge(player: Player, owner: string, signature: string, seen: Option<Entry>, found: Verified, now: int)
    | Refresh(player: Player, snapshot: Entry, verified: Option<Verified>, now: int)

  function Distance(a: nat, b: nat): nat { if a > b then a - b else b - a }

  /** The state after a step, and whether the step was accepted. */
  function Do(s: State, step: Step): (State, bool) {
    match step
    case Gate(action, player, at, now, interval) =>
      var key := (action, player);
      if Distance(now, at) > ACTION_CLOCK_SKEW_MS then (s, false)
      else if key in s.actionTimes && (at <= s.actionTimes[key] || at - s.actionTimes[key] < interval) then (s, false)
      else (s.(actionTimes := s.actionTimes[key := at]), true)
    case Delegate(player, at, enabled) =>
      if player !in s.players || at <= s.players[player].delegatedAtMs then (s, false)
      else (s.(players := s.players[player := s.players[player].(delegated := enabled, delegatedAtMs := at)]), true)
    case Merge(player, owner, signature, snapshot, verified, now) =>
      if player in s.players then
        var entry := s.players[player];
        if entry.owner != owner then (s, false)
        else
          var kept := if snapshot.Some? then Apply(entry, snapshot.value, Some(verified.(registeredAt := entry.registeredAt)), now).0 else entry;
          (s.(players := s.players[player := kept.(signature := signature)]), true)
      else if |s.players| >= MAX_REGISTERED_PLAYERS then (s, false)
      else (s.(players := s.players[player := Entry(owner, signature, verified.registeredAt, false, 0, Some(verified))]), true)
    case Refresh(player, snapshot, verified, now) =>
      if player !in s.players then (s, false)
      else
        var (entry, changed) := Apply(s.players[player], snapshot, verified, now);
        (s.(players := s.players[player := entry]), changed)
  }

  /** The entry still has the registration and the state that were read. */
  ghost predicate Unmoved(e: Entry, read: Entry) {
    (e.owner, e.signature, e.registeredAt, e.state) == (read.owner, read.signature, read.registeredAt, read.state)
  }

  datatype RegistrationError = OwnerChanged | RegistryFull

  // ----- the server -----

  class Server {
    var players: map<Player, Entry>
    var actionTimes: map<ActionKey, U64>

    constructor ()
      ensures Contents() == EMPTY
    {
      players, actionTimes := map[], map[];
    }

    ghost function Contents(): State
      reads this
    {
      State(players, actionTimes)
    }

    /** The timestamp gate of `authorize_action`: near the clock, newer than the last action and far enough from it. */
    method Authorize(action: string, player: Player, timestampMs: U64, nowMs: U64, intervalMs: U64) returns (ok: bool)
      modifies this`actionTimes
      ensures var last := old(actionTimes);
              && (ok <==> && nowMs - 300_000 <= timestampMs <= nowMs + 300_000
                          && ((action, player) in last ==> && last[(action, player)] < timestampMs
                                                           && last[(action, player)] + intervalMs <= timestampMs))
              && actionTimes == if ok then last[(action, player) := timestampMs] else last
      ensures (Contents(), ok) == Do(old(Contents()), Gate(action, player, timestampMs, nowMs, intervalMs))
    {
      if Distance(nowMs, timestampMs) > ACTION_CLOCK_SKEW_MS { return false; }
      var key := (action, player);
      if key in actionTimes {
        var previous := actionTimes[key];
        var passed := if timestampMs > previous then timestampMs - previous else 0;
        if timestampMs <= previous || passed < intervalMs { return false; }
      }
      actionTimes := actionTimes[key := timestampMs];
      return true;
    }

    /** Consent is given and withdrawn alike: by any request newer than the last change. */
    method SetDelegation(player: Player, timestampMs: U64, enabled: bool) returns (ok: bool)
      modifies this`players
      ensures var was := old(players);
              && (ok <==> player in was && was[player].delegatedAtMs < timestampMs)
              && players == if ok then was[player := was[player].(delegated := enabled, delegatedAtMs := timestampMs)] else was
      ensures (Contents(), ok) == Do(old(Contents()), Delegate(player, timestampMs, enabled))
    {
      if player !in players { return false; }
      var entry := players[player];
      if timestampMs <= entry.delegatedAtMs { return false; }
      players := players[player := entry.(delegated := enabled, delegatedAtMs := timestampMs)];
      return true;
    }

    /** The answer to a registration is the state now stored, whether or not it is the one just verified. */
    method MergeVerifiedRegistration(player: Player, owner: string, signature: string, snapshot: Option<Entry>,
                                     verified: Verified, now: int) returns (r: Result<Verified, RegistrationError>)
      modifies this`players
      ensures (Contents(), r.Ok?) == Do(old(Contents()), Merge(player, owner, signature, snapshot, verified, now))
      ensures r.Err? <==> if player in old(players) then old(players)[player].owner != owner else |old(players)| >= 10_000
      ensures r.Err? ==> players == old(players)
      ensures r.Ok? ==> player in players && players == old(players)[player := players[player]]
      ensures r.Ok? && player !in old(players) ==>
                players[player] == Entry(owner, signature, verified.registeredAt, false, 0, Some(verified))
      ensures r.Ok? && player in old(players) ==>
                var (was, entry) := (old(players)[player], players[player]);
                && entry.owner == owner && entry.signature == signature && entry.registeredAt == was.registeredAt
                && entry.delegated == was.delegated && entry.delegatedAtMs == was.delegatedAtMs
                && entry.state == if snapshot.Some? && Unmoved(was, snapshot.value)
                                  then Some(verified.(registeredAt := was.registeredAt)) else was.state
      ensures r.Ok? ==> r.value == match players[player].state
                                   case Some(stored) => stored
                                   case None => verified.(registeredAt := players[player].registeredAt)
      ensures r.Err? ==> r.error == if player in old(players) then OwnerChanged else RegistryFull
    {
      if player in players {
        var entry := players[player];
        if entry.owner != owner { return Err(OwnerChanged); }
        var dated := verified.(registeredAt := entry.registeredAt);
        if snapshot.Some? {
          entry := Apply(entry, snapshot.value, Some(dated), now).0;
        }
        players := players[player := entry.(signature := signature)];
        return Ok(if entry.state.Some? then entry.state.value else dated);
      }
      if |players| >= MAX_REGISTERED_PLAYERS { return Err(RegistryFull); }
      players := players[player := Entry(owner, signature, verified.registeredAt, false, 0, Some(verified))];
      return Ok(verified);
    }

    /** What a check found is stored, or the live state marked inactive, exactly on the entry the check had read. */
    method ApplyVerifiedState(player: Player, snapshot: Entry, verified: Option<Verified>, now: int) returns (changed: bool)
      modifies this`players
      ensures changed <==> player in old(players) && Unmoved(old(players)[player], snapshot)
      ensures !changed ==> players == old(players)
      ensures changed ==>
                var was := old(players)[player];
                var inactive := if was.state.None? then None else Some(was.state.value.(active := false, updatedAt := now));
                players == old(players)[player := was.(state := if verified.Some? then verified else inactive)]
      ensures (Contents(), changed) == Do(old(Contents()), Refresh(player, snapshot, verified, now))
    {
      if player !in players { return false; }
      var (entry, applied) := Apply(players[player], snapshot, verified, now);
      players := players[player := entry];
      return applied;
    }
  }

  // ----- every interleaving -----

  function After(s: State, steps: seq<Step>): State {
    if steps == [] then s else Do(After(s, steps[..|steps| - 1]), steps[|steps| - 1]).0
  }

  lemma AfterNext(s: State, steps: seq<Step>, n: nat)
    requires n < |steps|
    ensures After(s, steps[..n + 1]) == Do(After(s, steps[..n]), steps[n]).0
  {
    assert steps[..n + 1][..n] == steps[..n];
  }

  /** Step `k` of the run took effect. */
  predicate Accepted(s: State, steps: seq<Step>, k: nat)
    requires k < |steps|
  {
    Do(After(s, steps[..k]), steps[k]).1
  }

  predicate ConsentChange(s: State, steps: seq<Step>, k: nat, player: Player)
    requires k < |steps|
  {
    steps[k].Delegate? && steps[k].player == player && Accepted(s, steps, k)
  }

  /** One step never removes a player, changes an owner or a registration time, or lowers a consent timestamp. */
  lemma StepKeepsEntry(s: State, step: Step, player: Player)
    requires player in s.players
    ensures player in Do(s, step).0.players
    ensures var (e, n) := (s.players[player], Do(s, step).0.players[player]);
            && n.owner == e.owner && n.registeredAt == e.registeredAt
            && (if step.Delegate? && step.player == player && Do(s, step).1
                then n.delegated == step.enabled && n.delegatedAtMs == step.timestampMs > e.delegatedAtMs
                else n.delegated == e.delegated && n.delegatedAtMs == e.delegatedAtMs)
  {}

  // ----- verified states form one chain -----

  /** The state stored for a player; `None` if the player is not registered. */
  function Stored(s: State, player: Player): Option<Option<Verified>> {
    if player in s.players then Some(s.players[player].state) else None
  }

  predicate Writes(s: State, steps: seq<Step>, k: nat, player: Player)
    requires k < |steps|
  {
    Stored(After(s, steps[..k + 1]), player) != Stored(After(s, steps[..k]), player)
  }

  /** The snapshot a verification started from. */
  function Read(step: Step): Option<Entry> {
    match step
    case Refresh(_, snapshot, _, _) => Some(snapshot)
    case Merge(_, _, _, seen, _, _) => seen
    case _ => None
  }

  /** What a verification stores over `before`: what it found, or without a live state the old one, no longer active. */
  function Outcome(step: Step, before: Entry): Option<Verified> {
    match step
    case Merge(_, _, _, _, found, _) => Some(found.(registeredAt := before.registeredAt))
    case Refresh(_, _, Some(found), _) => Some(found)
    case Refresh(_, _, None, now) =>
      if before.state.Some? then Some(before.state.value.(active := false, updatedAt := now)) else None
    case _ => before.state
  }

  /** A verified state is replaced only by a verification that had read that very state and registration. */
  lemma StateReplacedFromSnapshot(s: State, step: Step, player: Player)
    requires player in s.players && Stored(Do(s, step).0, player) != Stored(s, player)
    ensures step.Refresh? || step.Merge?
    ensures step.player == player && Read(step).Some?
    ensures Read(step).value.state == s.players[player].state && s.players[player].SameRegistration(Read(step).value)
    ensures Stored(Do(s, step).0, player) == Some(Outcome(step, s.players[player]))
  {}

  lemma {:induction false} NothingWritten(s: State, steps: seq<Step>, from: nat, until: nat, player: Player)
    requires from <= until <= |steps| && forall k :: from <= k < until ==> !Writes(s, steps, k, player)
    ensures Stored(After(s, steps[..until]), player) == Stored(After(s, steps[..from]), player)
    decreases until
  {
    hide Stored;
    if from < until {
      NothingWritten(s, steps, from, until - 1, player);
      assert !Writes(s, steps, until - 1, player);
    }
  }

  /**
   Whatever runs at once, the states of a player form one chain: every verification that lands had read exactly
   the state left by the last one that landed before it, and what it stores is its own outcome.
  */
  lemma VerificationsChain(s: State, steps: seq<Step>, i: nat, j: nat, player: Player)
    requires i <= j < |steps| && player in After(s, steps[..i]).players && Writes(s, steps, j, player)
    requires forall k :: i <= k < j ==> !Writes(s, steps, k, player)
    ensures Read(steps[j]).Some? && steps[j].player == player
    ensures Some(Read(steps[j]).value.state) == Stored(After(s, steps[..i]), player)
    ensures player in After(s, steps[..j]).players && After(s, steps[..j]).players[player].SameRegistration(Read(steps[j]).value)
    ensures Stored(After(s, steps[..j + 1]), player) == Some(Outcome(steps[j], After(s, steps[..j]).players[player]))
  {
    hide Do;
    NothingWritten(s, steps, i, j, player);
    AfterNext(s, steps, j);
    StateReplacedFromSnapshot(After(s, steps[..j]), steps[j], player);
  }

  /** How an entry may differ later: same owner and registration time, consent only under a newer timestamp. */
  predicate Later(e: Entry, n: Entry) {
    && n.owner == e.owner && n.registeredAt == e.registeredAt && e.delegatedAtMs <= n.delegatedAtMs
    && (e.delegatedAtMs == n.delegatedAtMs ==> e.delegated == n.delegated)
  }

  /**
   A verification lands if nothing re-registered or re-verified the player since its snapshot was read;
   consent changes in between do not disturb it.
  */
  lemma UndisturbedVerificationLands(s: State, steps: seq<Step>, readAt: nat, player: Player, verified: Verified, now: int)
    requires readAt <= |steps| && player in After(s, steps[..readAt]).players
    requires forall k :: readAt <= k < |steps| ==> !Rewrites(steps[k], player)
    ensures player in After(s, steps).players
    ensures var r := Do(After(s, steps), Refresh(player, After(s, steps[..readAt]).players[player], Some(verified), now));
            r.1 && player in r.0.players && r.0.players[player].state == Some(verified)
  {
    assert steps[..|steps|] == steps;
    Undisturbed(s, steps, readAt, |steps|, player);
  }

  predicate Rewrites(step: Step, player: Player) { (step.Merge? || step.Refresh?) && step.player == player }

  lemma {:induction false} Undisturbed(s: State, steps: seq<Step>, from: nat, until: nat, player: Player)
    requires from <= until <= |steps| && player in After(s, steps[..from]).players
    requires forall k :: from <= k < until ==> !Rewrites(steps[k], player)
    ensures player in After(s, steps[..until]).players
    ensures After(s, steps[..until]).players[player].SameRegistration(After(s, steps[..from]).players[player])
    ensures After(s, steps[..until]).players[player].state == After(s, steps[..from]).players[player].state
    decreases until
  {
    hide Do;
    if from < until {
      Undisturbed(s, steps, from, until - 1, player);
      AfterNext(s, steps, until - 1);
      StepLeavesState(After(s, steps[..until - 1]), steps[until - 1], player);
    }
  }

  lemma StepLeavesState(s: State, step: Step, player: Player)
    requires player in s.players && !Rewrites(step, player)
    ensures player in Do(s, step).0.players
    ensures Do(s, step).0.players[player].SameRegistration(s.players[player])
    ensures Do(s, step).0.players[player].state == s.players[player].state
  {}

  lemma {:induction false} RunKeepsEntry(s: State, steps: seq<Step>, from: nat, until: nat, player: Player)
    requires from <= until <= |steps| && player in After(s, steps[..from]).players
    ensures player in After(s, steps[..until]).players
    ensures Later(After(s, steps[..from]).players[player], After(s, steps[..until]).players[player])
    ensures After(s, steps[..from]).players[player].delegatedAtMs == After(s, steps[..until]).players[player].delegatedAtMs
         <==> (forall k :: from <= k < until ==> !ConsentChange(s, steps, k, player))
    decreases until
  {
    hide Do;
    if from < until {
      RunKeepsEntry(s, steps, from, until - 1, player);
      AfterNext(s, steps, until - 1);
      StepKeepsEntry(After(s, steps[..until - 1]), steps[until - 1], player);
      assert ConsentChange(s, steps, until - 1, player) <==>
             steps[until - 1].Delegate? && steps[until - 1].player == player && Do(After(s, steps[..until - 1]), steps[until - 1]).1;
    }
  }

  /** Accepted consent timestamps of one player strictly increase along every run. */
  lemma ConsentTimestampsIncrease(s: State, steps: seq<Step>, i: nat, j: nat, player: Player)
    requires i < j < |steps| && ConsentChange(s, steps, i, player) && ConsentChange(s, steps, j, player)
    ensures steps[i].timestampMs < steps[j].timestampMs
  {
    AfterNext(s, steps, i);
    AfterNext(s, steps, j);
    RunKeepsEntry(s, steps, i + 1, j, player);
  }

  /** The stored choice is the newest accepted one; before any was accepted, the loaded one, or none for a new player. */
  lemma StoredConsentIsNewest(s: State, steps: seq<Step>, player: Player, last: nat)
    requires player in After(s, steps).players
    ensures var e := After(s, steps).players[player];
            && (last < |steps| && ConsentChange(s, steps, last, player)
                && (forall k :: last < k < |steps| ==> !ConsentChange(s, steps, k, player)) ==>
                  e.delegated == steps[last].enabled && e.delegatedAtMs == steps[last].timestampMs)
            && ((forall k :: 0 <= k < |steps| ==> !ConsentChange(s, steps, k, player)) ==>
                  (e.delegated, e.delegatedAtMs) == Loaded(s, player))
  {
    assert steps[..|steps|] == steps;
    if last < |steps| && ConsentChange(s, steps, last, player)
       && (forall k :: last < k < |steps| ==> !ConsentChange(s, steps, k, player)) {
      AfterNext(s, steps, last);
      RunKeepsEntry(s, steps, last + 1, |steps|, player);
    }
    if forall k :: 0 <= k < |steps| ==> !ConsentChange(s, steps, k, player) { NoConsentYet(s, steps, |steps|, player); }
  }

  function Loaded(s: State, player: Player): (bool, U64) {
    if player in s.players then (s.players[player].delegated, s.players[player].delegatedAtMs) else (false, 0)
  }

  lemma {:induction false} NoConsentYet(s: State, steps: seq<Step>, n: nat, player: Player)
    requires n <= |steps| && player in After(s, steps[..n]).players
    requires forall k :: 0 <= k < n ==> !ConsentChange(s, steps, k, player)
    ensures var e := After(s, steps[..n]).players[player]; (e.delegated, e.delegatedAtMs) == Loaded(s, player)
  {
    hide Do;
    if n > 0 {
      var before := After(s, steps[..n - 1]);
      AfterNext(s, steps, n - 1);
      if player in before.players {
        NoConsentYet(s, steps, n - 1, player);
        StepKeepsEntry(before, steps[n - 1], player);
        assert !ConsentChange(s, steps, n - 1, player);
      } else {
        StaysAbsent(s, steps, n - 1, player);
        NewcomersGaveNone(before, steps[n - 1], player);
      }
    }
  }

  lemma NewcomersGaveNone(s: State, step: Step, player: Player)
    requires player !in s.players && player in Do(s, step).0.players
    ensures var e := Do(s, step).0.players[player]; !e.delegated && e.delegatedAtMs == 0
  {}

  /** Players are never removed, so one missing now was missing at the start. */
  lemma StaysAbsent(s: State, steps: seq<Step>, n: nat, player: Player)
    requires n <= |steps| && player !in After(s, steps[..n]).players
    ensures player !in s.players
  {
    if player in s.players {
      assert steps[..0] == [];
      RunKeepsEntry(s, steps, 0, n, player);
    }
  }

  /** The time stored with a consent is the greatest among the one loaded and those of the accepted changes. */
  lemma {:induction false} ConsentTimeIsNewest(s: State, steps: seq<Step>, n: nat, player: Player)
    requires n <= |steps| && player in After(s, steps[..n]).players
    ensures var at := After(s, steps[..n]).players[player].delegatedAtMs;
            && at >= Loaded(s, player).1
            && (forall j :: 0 <= j < n && ConsentChange(s, steps, j, player) ==> steps[j].timestampMs <= at)
            && (at == Loaded(s, player).1
                || exists j :: 0 <= j < n && ConsentChange(s, steps, j, player) && steps[j].timestampMs == at)
  {
    hide Do;
    if n == 0 {
      assert steps[..0] == [];
    } else {
      var before := After(s, steps[..n - 1]);
      AfterNext(s, steps, n - 1);
      if player in before.players {
        ConsentTimeIsNewest(s, steps, n - 1, player);
        StepKeepsEntry(before, steps[n - 1], player);
      } else {
        StaysAbsent(s, steps, n - 1, player);
        NoChangeWhileAbsent(s, steps, n, player);
        NoConsentYet(s, steps, n, player);
      }
    }
  }

  lemma NoChangeWhileAbsent(s: State, steps: seq<Step>, n: nat, player: Player)
    requires 0 < n <= |steps| && player !in After(s, steps[..n - 1]).players
    ensures forall k :: 0 <= k < n ==> !ConsentChange(s, steps, k, player)
  {
    forall k | 0 <= k < n ensures !ConsentChange(s, steps, k, player) {
      if player in After(s, steps[..k]).players { RunKeepsEntry(s, steps, k, n - 1, player); }
    }
  }

  /**
   A request to give or to withdraw consent is accepted exactly when the player is registered and the request is
   newer than the loaded choice and than every request of the player accepted before it.
  */
  lemma ConsentAcceptedExactly(s: State, steps: seq<Step>, k: nat, player: Player)
    requires k < |steps| && steps[k].Delegate? && steps[k].player == player
    ensures ConsentChange(s, steps, k, player) <==>
              && player in After(s, steps[..k]).players && steps[k].timestampMs > Loaded(s, player).1
              && forall j :: 0 <= j < k && ConsentChange(s, steps, j, player) ==> steps[k].timestampMs > steps[j].timestampMs
  {
    if player in After(s, steps[..k]).players { ConsentTimeIsNewest(s, steps, k, player); }
  }

  /** A request to give the player's consent at a time after `at`. */
  predicate AsksAgain(step: Step, player: Player, at: U64) {
    step.Delegate? && step.player == player && step.enabled && step.timestampMs > at
  }

  /**
   A withdrawal newer than every accepted request of a registered player takes effect at once, and from then on no
   renewal of the player, queued before or after, is authorized until a request newer than the withdrawal asks for it.
  */
  lemma {:induction false} WithdrawalIsFinal(s: State, steps: seq<Step>, k: nat, n: nat, player: Player)
    requires k < n <= |steps| && steps[k].Delegate? && steps[k].player == player && !steps[k].enabled
    requires player in After(s, steps[..k]).players && steps[k].timestampMs > Loaded(s, player).1
    requires forall j :: 0 <= j < k && ConsentChange(s, steps, j, player) ==> steps[k].timestampMs > steps[j].timestampMs
    requires forall j :: k < j < n ==> !AsksAgain(steps[j], player, steps[k].timestampMs)
    ensures player in After(s, steps[..n]).players
    ensures var e := After(s, steps[..n]).players[player];
            && !e.delegated && e.delegatedAtMs >= steps[k].timestampMs
            && forall queued, now, force :: !e.QueuedAuthorized(queued, now, force)
    decreases n
  {
    hide Loaded, Do;
    AfterNext(s, steps, n - 1);
    if n == k + 1 {
      ConsentAcceptedExactly(s, steps, k, player);
      StepKeepsEntry(After(s, steps[..k]), steps[k], player);
    } else {
      WithdrawalIsFinal(s, steps, k, n - 1, player);
      StepKeepsEntry(After(s, steps[..n - 1]), steps[n - 1], player);
      assert !AsksAgain(steps[n - 1], player, steps[k].timestampMs);
    }
  }

  /**
   A queued renewal starts exactly when no consent change was accepted since it was queued, whatever ran meanwhile,
   the registration is signed as it was, consent stands, and the state is active and forced or inside its margin.
  */
  lemma QueuedRenewalHonoursConsent(s: State, steps: seq<Step>, queuedAt: nat, player: Player, now: int, force: bool)
    requires queuedAt <= |steps| && player in After(s, steps[..queuedAt]).players && player in After(s, steps).players
    ensures var (queued, entry) := (After(s, steps[..queuedAt]).players[player], After(s, steps).players[player]);
            entry.QueuedAuthorized(queued, now, force) <==>
              && (forall k :: queuedAt <= k < |steps| ==> !ConsentChange(s, steps, k, player))
              && entry.signature == queued.signature && entry.delegated && entry.state.Some? && entry.state.value.active
              && (force || (entry.state.value.expiresAt.Some?
                            && now < entry.state.value.expiresAt.value < now + entry.state.value.marginSeconds))
    ensures var (queued, entry) := (After(s, steps[..queuedAt]).players[player], After(s, steps).players[player]);
            entry.QueuedAuthorized(queued, now, force) ==> queued.delegated && entry.SameRegistration(queued)
  {
    assert steps[..|steps|] == steps;
    RunKeepsEntry(s, steps, queuedAt, |steps|, player);
  }

  // ----- the registry itself -----

  /** The verifier stamps what it finds with a registration time its caller read from the registry, at any time before. */
  predicate Stamped(s: State, steps: seq<Step>, k: nat)
    requires k < |steps|
  {
    steps[k].Refresh? && steps[k].verified.Some? ==>
      exists j :: 0 <= j <= k && steps[k].player in After(s, steps[..j]).players
                  && After(s, steps[..j]).players[steps[k].player].registeredAt == steps[k].verified.value.registeredAt
  }

  /** The registry is within its limit, and a published state shows the time its player first registered. */
  predicate Sound(s: State) {
    && |s.players| <= 10_000
    && forall p <- s.players :: s.players[p].state.Some? ==> s.players[p].state.value.registeredAt == s.players[p].registeredAt
  }

  lemma StepKeepsSound(s: State, step: Step)
    requires Sound(s)
    requires step.Refresh? && step.verified.Some? && step.player in s.players ==>
               step.verified.value.registeredAt == s.players[step.player].registeredAt
    ensures Sound(Do(s, step).0)
  {
    if !step.Gate? && step.player in s.players {
      assert Do(s, step).0.players.Keys == s.players.Keys;
    }
  }

  /** Registration times never change, so a stamp is right however long the verification took. */
  lemma StampIsCurrent(s: State, steps: seq<Step>, k: nat)
    requires k < |steps| && Stamped(s, steps, k) && steps[k].Refresh? && steps[k].verified.Some?
    ensures steps[k].player in After(s, steps[..k]).players
    ensures After(s, steps[..k]).players[steps[k].player].registeredAt == steps[k].verified.value.registeredAt
  {
    hide Do, After;
    var j :| 0 <= j <= k && steps[k].player in After(s, steps[..j]).players
             && After(s, steps[..j]).players[steps[k].player].registeredAt == steps[k].verified.value.registeredAt;
    RunKeepsEntry(s, steps, j, k, steps[k].player);
  }

  lemma {:induction false} SoundSoFar(s: State, steps: seq<Step>, n: nat)
    requires Sound(s) && n <= |steps| && forall k :: 0 <= k < n ==> Stamped(s, steps, k)
    ensures Sound(After(s, steps[..n]))
  {
    hide Do, Stamped, Sound;
    if n == 0 {
      assert steps[..0] == [];
    } else {
      SoundSoFar(s, steps, n - 1);
      AfterNext(s, steps, n - 1);
      if steps[n - 1].Refresh? && steps[n - 1].verified.Some? { StampIsCurrent(s, steps, n - 1); }
      StepKeepsSound(After(s, steps[..n - 1]), steps[n - 1]);
    }
  }

  /** Every run from a sound registry keeps it sound. */
  lemma RegistryStaysSound(s: State, steps: seq<Step>)
    requires Sound(s) && forall k :: 0 <= k < |steps| ==> Stamped(s, steps, k)
    ensures Sound(After(s, steps))
  {
    SoundSoFar(s, steps, |steps|);
    assert steps[..|steps|] == steps;
  }

  // ----- replayed actions -----

  predicate GatePassed(s: State, steps: seq<Step>, k: nat, key: ActionKey)
    requires k < |steps|
  {
    steps[k].Gate? && (steps[k].action, steps[k].player) == key && Accepted(s, steps, k)
  }

  lemma GateTimeGrows(s: State, step: Step, key: ActionKey)
    requires key in s.actionTimes
    ensures key in Do(s, step).0.actionTimes && s.actionTimes[key] <= Do(s, step).0.actionTimes[key]
  {}

  lemma {:induction false} GateTimesGrow(s: State, steps: seq<Step>, from: nat, until: nat, key: ActionKey)
    requires from <= until <= |steps| && key in After(s, steps[..from]).actionTimes
    ensures key in After(s, steps[..until]).actionTimes
    ensures After(s, steps[..from]).actionTimes[key] <= After(s, steps[..until]).actionTimes[key]
    decreases until
  {
    hide Do;
    if from < until {
      GateTimesGrow(s, steps, from, until - 1, key);
      AfterNext(s, steps, until - 1);
      GateTimeGrows(After(s, steps[..until - 1]), steps[until - 1], key);
    }
  }

  /** The time stored for a key is the greatest among the one there at first and those of the accepted actions. */
  lemma {:induction false} GateTimeIsNewest(s: State, steps: seq<Step>, n: nat, key: ActionKey)
    requires n <= |steps|
    ensures var times := After(s, steps[..n]).actionTimes;
            && (key in times <==> key in s.actionTimes || exists i :: 0 <= i < n && GatePassed(s, steps, i, key))
            && (key in s.actionTimes ==> s.actionTimes[key] <= times[key])
            && (forall i :: 0 <= i < n && GatePassed(s, steps, i, key) ==> steps[i].timestampMs <= times[key])
            && (key in times ==>
                  || (key in s.actionTimes && times[key] == s.actionTimes[key])
                  || exists i :: 0 <= i < n && GatePassed(s, steps, i, key) && steps[i].timestampMs == times[key])
    decreases n
  {
    hide Do;
    if n == 0 {
      assert steps[..0] == [];
    } else {
      GateTimeIsNewest(s, steps, n - 1, key);
      AfterNext(s, steps, n - 1);
      GateStep(After(s, steps[..n - 1]), steps[n - 1], key);
      assert GatePassed(s, steps, n - 1, key) <==>
             steps[n - 1].Gate? && (steps[n - 1].action, steps[n - 1].player) == key && Do(After(s, steps[..n - 1]), steps[n - 1]).1;
    }
  }

  lemma GateStep(s: State, step: Step, key: ActionKey)
    ensures Do(s, step).0.actionTimes == if step.Gate? && Do(s, step).1 then s.actionTimes[(step.action, step.player) := step.timestampMs]
                                         else s.actionTimes
    ensures step.Gate? && Do(s, step).1 && (step.action, step.player) in s.actionTimes ==>
              s.actionTimes[(step.action, step.player)] < step.timestampMs
  {}

  /** The times at which an action may follow one at `previous`. */
  predicate Spaced(previous: U64, at: U64, intervalMs: U64) { previous < at && previous + intervalMs <= at }

  /**
   An action passes exactly when it is near the clock and spaced from the action stored at first and from every
   accepted action of its kind and player before it.
  */
  lemma ActionAcceptedExactly(s: State, steps: seq<Step>, k: nat, key: ActionKey)
    requires k < |steps| && steps[k].Gate? && (steps[k].action, steps[k].player) == key
    ensures GatePassed(s, steps, k, key) <==>
              && steps[k].nowMs - 300_000 <= steps[k].timestampMs <= steps[k].nowMs + 300_000
              && (key in s.actionTimes ==> Spaced(s.actionTimes[key], steps[k].timestampMs, steps[k].intervalMs))
              && forall i :: 0 <= i < k && GatePassed(s, steps, i, key) ==>
                               Spaced(steps[i].timestampMs, steps[k].timestampMs, steps[k].intervalMs)
  {
    GateTimeIsNewest(s, steps, k, key);
  }

  /** Two accepted actions of one kind by one player are never the same request, and keep their minimum distance. */
  lemma ActionsAreSpaced(s: State, steps: seq<Step>, i: nat, j: nat, key: ActionKey)
    requires i < j < |steps| && GatePassed(s, steps, i, key) && GatePassed(s, steps, j, key)
    ensures steps[i].timestampMs < steps[j].timestampMs
    ensures steps[i].timestampMs + steps[j].intervalMs <= steps[j].timestampMs
    ensures Distance(steps[j].nowMs, steps[j].timestampMs) <= ACTION_CLOCK_SKEW_MS
  {
    AfterNext(s, steps, i);
    GateTimesGrow(s, steps, i + 1, j, key);
  }
}
