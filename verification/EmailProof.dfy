/**
 Email proofs (`pending-email-verification.ts` and the address change of `microsoft-email-verification.ts`): one
 row per intent, changed by conditional updates that many callers issue at once, each with a clock of its own.
 Tokens stand for their hashes.
 */
module EmailProof {
  import opened Wrappers

  /** A row of `pending_email_verification`. */
  datatype Intent = Intent(
    email: nat,
    expiresAt: int,
    token: Option<nat>,
    tokenExpiresAt: int,
    sentAt: Option<int>,
    sends: nat,
    consumedAt: Option<int>
  )

  /** A mail that a send has claimed: its token, the address read before the claim, and the sender's time. */
  datatype Claim = Claim(token: nat, email: nat, at: int)

  /** What has happened to an intent, including after its row has been deleted. */
  datatype History = History(claims: seq<Claim>, consumed: seq<nat>)

  /** A send under way: the row it has read, or the mail it has claimed and not yet delivered. */
  datatype Sender = HasRead(id: nat, email: nat, expiresAt: int) | HasClaimed(id: nat, token: nat)

  datatype World = World(
    intents: map<nat, Intent>,
    histories: map<nat, History>,
    senders: map<nat, Sender>,
    tokens: set<nat>
  )

  const START := World(map[], map[], map[], {})

  const MINUTE := 60_000

  datatype Event =
    | Creates(id: nat, email: nat, expiresAt: int)
    | SendReads(who: nat, id: nat, now: int)
    | SendClaims(who: nat, token: nat, now: int)
    | DeliveryEnds(who: nat, ok: bool)
    | AddressChanges(id: nat, email: nat)
    | Consumes(id: nat, token: nat, now: int)
    | Cleanup(ids: set<nat>, now: int)

  function Min(x: int, y: int): int { if x < y then x else y }

  predicate Enabled(w: World, ev: Event) {
    match ev
    case Creates(id, _, _) => id !in w.histories
    case SendReads(who, id, now) => who !in w.senders && id in w.intents && now < w.intents[id].expiresAt
    case SendClaims(who, token, _) => who in w.senders && w.senders[who].HasRead? && token !in w.tokens
    case DeliveryEnds(who, _) => who in w.senders && w.senders[who].HasClaimed?
    case Cleanup(ids, now) => forall id :: id in ids ==> id in w.intents && w.intents[id].expiresAt < now
    case _ => true
  }

  /** The condition of the claiming update. */
  predicate MaySend(row: Intent, now: int) {
    row.consumedAt.None? && now < row.expiresAt && row.sends < 5
    && (row.sentAt.Some? ==> row.sentAt.value <= now - MINUTE)
  }

  function Claimed(w: World, who: nat, token: nat, now: int): World
    requires who in w.senders && w.senders[who].HasRead?
  {
    var s := w.senders[who];
    if s.id !in w.intents || s.id !in w.histories || !MaySend(w.intents[s.id], now)
    then w.(senders := w.senders - {who}, tokens := w.tokens + {token})
    else
      var row := w.intents[s.id].(
        token := Some(token), tokenExpiresAt := Min(now + 15 * MINUTE, s.expiresAt), sentAt := Some(now),
        sends := w.intents[s.id].sends + 1);
      var h := w.histories[s.id];
      w.(intents := w.intents[s.id := row],
         histories := w.histories[s.id := h.(claims := h.claims + [Claim(token, s.email, now)])],
         senders := w.senders[who := HasClaimed(s.id, token)],
         tokens := w.tokens + {token})
  }

  /** A failed delivery takes its own token back, if the row still has it. */
  function DeliveryEnded(w: World, who: nat, ok: bool): World
    requires who in w.senders && w.senders[who].HasClaimed?
  {
    var s := w.senders[who];
    var next := w.(senders := w.senders - {who});
    if ok || s.id !in w.intents || w.intents[s.id].token != Some(s.token) then next
    else next.(intents := w.intents[s.id := w.intents[s.id].(token := None)])
  }

  predicate MayConsume(row: Intent, token: nat, now: int) {
    row.token == Some(token) && row.consumedAt.None? && now < row.expiresAt && now < row.tokenExpiresAt
  }

  function Consumed(w: World, id: nat, token: nat, now: int): World {
    if id !in w.intents || id !in w.histories || !MayConsume(w.intents[id], token, now) then w
    else
      var h := w.histories[id];
      w.(intents := w.intents[id := w.intents[id].(consumedAt := Some(now), token := None)],
         histories := w.histories[id := h.(consumed := h.consumed + [token])])
  }

  function Apply(w: World, ev: Event): World
    requires Enabled(w, ev)
  {
    match ev
    case Creates(id, email, expiresAt) =>
      w.(intents := w.intents[id := Intent(email, expiresAt, None, 0, None, 0, None)],
         histories := w.histories[id := History([], [])])
    case SendReads(who, id, _) => w.(senders := w.senders[who := HasRead(id, w.intents[id].email, w.intents[id].expiresAt)])
    case SendClaims(who, token, now) => Claimed(w, who, token, now)
    case DeliveryEnds(who, ok) => DeliveryEnded(w, who, ok)
    case AddressChanges(id, email) =>
      if id !in w.intents || w.intents[id].consumedAt.Some? then w
      else w.(intents := w.intents[id := w.intents[id].(email := email, token := None)])
    case Consumes(id, token, now) => Consumed(w, id, token, now)
    case Cleanup(ids, _) => w.(intents := w.intents - ids)
  }

  function Run(w: World, evs: seq<Event>): Option<World>
    decreases |evs|
  {
    if evs == [] then Some(w)
    else if !Enabled(w, evs[0]) then None
    else Run(Apply(w, evs[0]), evs[1..])
  }

  // ----- what always holds ---------------------------------------------------------------------

  /** The history of an intent as the rules want it. */
  predicate Proper(h: History) {
    && |h.claims| <= 5
    && (forall i, j :: 0 <= i < j < |h.claims| ==>
          h.claims[i].at + MINUTE <= h.claims[j].at && h.claims[i].token != h.claims[j].token)
    && |h.consumed| <= 1
    && (h.consumed != [] ==> h.claims != [] && h.consumed[0] == h.claims[|h.claims| - 1].token)
  }

  /** The row agrees with its history. */
  predicate Agrees(row: Intent, h: History) {
    && row.sends == |h.claims|
    && (row.sentAt.Some? <==> h.claims != [])
    && (h.claims != [] ==> row.sentAt == Some(h.claims[|h.claims| - 1].at))
    && (row.consumedAt.Some? <==> h.consumed != [])
    && (row.token.Some? ==>
          row.consumedAt.None? && h.claims != [] && row.token.value == h.claims[|h.claims| - 1].token)
  }

  predicate HistoryOk(w: World, id: nat)
    requires id in w.histories
  {
    Proper(w.histories[id])
    && forall i :: 0 <= i < |w.histories[id].claims| ==> w.histories[id].claims[i].token in w.tokens
  }

  predicate RowOk(w: World, id: nat)
    requires id in w.intents
  {
    id in w.histories && Agrees(w.intents[id], w.histories[id])
  }

  predicate Inv(w: World) {
    && (forall id :: id in w.histories ==> HistoryOk(w, id))
    && (forall id :: id in w.intents ==> RowOk(w, id))
    && (forall who :: who in w.senders ==> w.senders[who].id in w.histories)
  }

  lemma MoreTokens(w: World, next: World, id: nat)
    requires id in w.histories && HistoryOk(w, id) && w.tokens <= next.tokens
    requires id in next.histories && next.histories[id] == w.histories[id]
    ensures HistoryOk(next, id)
  {
  }

  /** The history of an intent that has just claimed a mail. */
  lemma ClaimIsProper(w: World, next: World, id: nat, claim: Claim)
    requires id in w.histories && HistoryOk(w, id) && claim.token !in w.tokens
    requires id in w.intents && RowOk(w, id) && MaySend(w.intents[id], claim.at)
    requires next.tokens == w.tokens + {claim.token} && id in next.histories
    requires var h := w.histories[id]; next.histories[id] == h.(claims := h.claims + [claim])
    ensures HistoryOk(next, id)
  {
    var h := w.histories[id];
    forall i | 0 <= i < |h.claims|
      ensures h.claims[i].at + MINUTE <= claim.at && h.claims[i].token != claim.token
    {
      assert h.claims[i].token in w.tokens;
    }
  }

  lemma ClaimKeepsInv(w: World, who: nat, token: nat, now: int)
    requires Inv(w) && Enabled(w, SendClaims(who, token, now))
    ensures Inv(Claimed(w, who, token, now))
  {
    hide HistoryOk, RowOk, MaySend;
    var s := w.senders[who];
    var next := Claimed(w, who, token, now);
    forall id | id in next.histories
      ensures HistoryOk(next, id)
    {
      if next.histories[id] == w.histories[id] {
        MoreTokens(w, next, id);
      } else {
        ClaimIsProper(w, next, id, Claim(token, s.email, now));
      }
    }
    forall id | id in next.intents
      ensures RowOk(next, id)
    {
      assert RowOk(w, id);
      ClaimedRow(w, who, token, now, id);
    }
  }

  lemma ClaimedRow(w: World, who: nat, token: nat, now: int, id: nat)
    requires Enabled(w, SendClaims(who, token, now)) && id in w.intents && RowOk(w, id)
    ensures RowOk(Claimed(w, who, token, now), id)
  {
    hide Proper;
  }

  lemma ConsumedHistory(w: World, id: nat, token: nat, now: int)
    requires id in w.intents && RowOk(w, id) && HistoryOk(w, id)
    ensures HistoryOk(Consumed(w, id, token, now), id) && RowOk(Consumed(w, id, token, now), id)
  {
  }

  lemma ConsumeKeepsInv(w: World, id: nat, token: nat, now: int)
    requires Inv(w)
    ensures Inv(Consumed(w, id, token, now))
  {
    hide HistoryOk, RowOk, MayConsume;
    var next := Consumed(w, id, token, now);
    if next != w {
      ConsumedHistory(w, id, token, now);
      forall other | other in next.histories
        ensures HistoryOk(next, other)
      {
        if other != id {
          MoreTokens(w, next, other);
        }
      }
      forall other | other in next.intents
        ensures RowOk(next, other)
      {
        if other != id {
          SameRow(w, next, other);
        }
      }
    }
  }

  lemma SameRow(w: World, next: World, id: nat)
    requires id in w.intents && RowOk(w, id) && id in next.intents && next.intents[id] == w.intents[id]
    requires id in w.histories ==> id in next.histories && next.histories[id] == w.histories[id]
    ensures RowOk(next, id)
  {
  }

  lemma ApplyInv(w: World, ev: Event)
    requires Inv(w) && Enabled(w, ev)
    ensures Inv(Apply(w, ev))
  {
    hide Claimed, Consumed, Proper;
    match ev
    case SendClaims(who, token, now) => ClaimKeepsInv(w, who, token, now);
    case Consumes(id, token, now) => ConsumeKeepsInv(w, id, token, now);
    case Creates(id, _, _) => assert Proper(History([], [])) by { EmptyIsProper(); }
    case _ =>
  }

  lemma EmptyIsProper()
    ensures Proper(History([], []))
  {
  }

  lemma {:induction false} RunKeepsInv(w: World, evs: seq<Event>)
    requires Inv(w) && Run(w, evs).Some?
    ensures Inv(Run(w, evs).value)
    decreases |evs|
  {
    hide Inv, Apply, Enabled;
    if evs != [] {
      ApplyInv(w, evs[0]);
      RunKeepsInv(Apply(w, evs[0]), evs[1..]);
    }
  }

  /**
   In every run, whatever the clocks of the callers: an intent sends at most five mails, a minute apart or more,
   each with a token of its own; it is consumed at most once, and with the token of its latest mail, after
   which it sends no more.
   */
  lemma IntentsAreProper(evs: seq<Event>, id: nat)
    requires Run(START, evs).Some? && id in Run(START, evs).value.histories
    ensures Proper(Run(START, evs).value.histories[id])
  {
    RunKeepsInv(START, evs);
  }

  lemma ConsumedStays(w: World, ev: Event, id: nat)
    requires Inv(w) && Enabled(w, ev) && id in w.histories && w.histories[id].consumed != []
    ensures var next := Apply(w, ev);
      && id in next.histories && next.histories[id] == w.histories[id]
      && (id in next.intents ==> id in w.intents && next.intents[id] == w.intents[id])
  {
    assert id in w.intents ==> RowOk(w, id);
    hide Inv, Proper;
  }

  /** A consumed intent takes no more mail, address or token, ever again. */
  lemma {:induction false} ConsumedIsFinal(w: World, evs: seq<Event>, id: nat)
    requires Inv(w) && Run(w, evs).Some? && id in w.histories && w.histories[id].consumed != []
    ensures id in Run(w, evs).value.histories && Run(w, evs).value.histories[id] == w.histories[id]
    ensures id in Run(w, evs).value.intents ==> id in w.intents && Run(w, evs).value.intents[id] == w.intents[id]
    decreases |evs|
  {
    if evs != [] {
      ApplyInv(w, evs[0]);
      ConsumedStays(w, evs[0], id);
      hide Inv, Apply, Enabled;
      ConsumedIsFinal(Apply(w, evs[0]), evs[1..], id);
    }
  }

  /** A failed delivery revokes its own token and nothing else: a newer mail of the intent stays good. */
  lemma FailureRevokesItsOwn(w: World, who: nat, id: nat)
    requires who in w.senders && w.senders[who].HasClaimed? && id in w.intents
    ensures var next := DeliveryEnded(w, who, false);
      id in next.intents
      && next.intents[id] == (if w.senders[who].id == id && w.intents[id].token == Some(w.senders[who].token)
                              then w.intents[id].(token := None) else w.intents[id])
      && next.histories == w.histories
  {
  }

  // ----- moments of a run -----------------------------------------------------------------------------------

  ghost predicate IsRun(evs: seq<Event>) {
    Run(START, evs).Some?
  }

  /** The world after the first `k` events of a run. */
  ghost function At(evs: seq<Event>, k: nat): World
    requires IsRun(evs) && k <= |evs|
  {
    assert evs[..k] + evs[k..] == evs;
    RunSplits(START, evs[..k], evs[k..]);
    Run(START, evs[..k]).value
  }

  lemma {:induction false} RunSplits(w: World, evs: seq<Event>, more: seq<Event>)
    requires Run(w, evs + more).Some?
    ensures Run(w, evs).Some? && Run(w, evs + more) == Run(Run(w, evs).value, more)
    decreases |evs|
  {
    hide Apply, Enabled;
    if evs == [] {
      assert evs + more == more;
    } else {
      assert (evs + more)[1..] == evs[1..] + more;
      RunSplits(Apply(w, evs[0]), evs[1..], more);
    }
  }

  lemma {:induction false} RunThen(w: World, evs: seq<Event>, ev: Event)
    requires Run(w, evs).Some? && Enabled(Run(w, evs).value, ev)
    ensures Run(w, evs + [ev]) == Some(Apply(Run(w, evs).value, ev))
    decreases |evs|
  {
    hide Apply, Enabled;
    if evs == [] {
      assert evs + [ev] == [ev];
    } else {
      assert (evs + [ev])[1..] == evs[1..] + [ev];
      RunThen(Apply(w, evs[0]), evs[1..], ev);
    }
  }

  lemma AtNext(evs: seq<Event>, k: nat)
    requires IsRun(evs) && k < |evs|
    ensures Enabled(At(evs, k), evs[k]) && At(evs, k + 1) == Apply(At(evs, k), evs[k])
  {
    hide Apply, Enabled;
    assert evs[..k] + evs[k..] == evs;
    RunSplits(START, evs[..k], evs[k..]);
    assert evs[k..][0] == evs[k];
    RunThen(START, evs[..k], evs[k]);
    assert evs[..k] + [evs[k]] == evs[..k + 1];
  }

  lemma AtEnds(evs: seq<Event>)
    requires IsRun(evs)
    ensures At(evs, 0) == START && At(evs, |evs|) == Run(START, evs).value
  {
    assert evs[..|evs|] == evs;
  }

  // ----- exactly which token opens an intent ------------------------------------------------------------------

  /** The step claims a mail with this token: unconsumed and unexpired, under five mails, a minute after the last. */
  predicate Claims(w: World, ev: Event, id: nat, token: nat) {
    && ev.SendClaims? && ev.token == token
    && ev.who in w.senders && w.senders[ev.who].HasRead? && w.senders[ev.who].id == id
    && id in w.intents
    && w.intents[id].consumedAt.None? && ev.now < w.intents[id].expiresAt && w.intents[id].sends < 5
    && (w.intents[id].sentAt.None? || ev.now - w.intents[id].sentAt.value >= 60_000)
  }

  /** The step ends a token of the intent: another mail, a new address, its own failed delivery, use, or cleanup. */
  predicate Withdraws(w: World, ev: Event, id: nat, token: nat) {
    match ev
    case SendClaims(_, other, _) => Claims(w, ev, id, other)
    case AddressChanges(i, _) => i == id
    case DeliveryEnds(who, ok) => !ok && who in w.senders && w.senders[who] == HasClaimed(id, token)
    case Consumes(i, t, now) =>
      i == id && t == token && id in w.intents && now < w.intents[id].expiresAt && now < w.intents[id].tokenExpiresAt
    case Cleanup(ids, _) => id in ids
    case _ => false
  }

  predicate Open(w: World, id: nat, token: nat) {
    id in w.intents && w.intents[id].token == Some(token)
  }

  lemma OpenStep(w: World, ev: Event, id: nat, token: nat)
    requires Inv(w) && Enabled(w, ev)
    ensures Open(Apply(w, ev), id, token) <==>
      Claims(w, ev, id, token) || (Open(w, id, token) && !Withdraws(w, ev, id, token))
    ensures var next := Apply(w, ev);
      && (Claims(w, ev, id, token) ==>
            id in next.intents && next.intents[id].sentAt == Some(ev.now)
            && next.intents[id].email == w.intents[id].email)
      && (Open(w, id, token) && !Withdraws(w, ev, id, token) ==>
            next.intents[id] == w.intents[id])
  {
    assert id in w.intents ==> RowOk(w, id);
    hide Inv, Proper, HistoryOk;
  }

  ghost predicate ClaimsAt(evs: seq<Event>, j: nat, id: nat, token: nat)
    requires IsRun(evs) && j < |evs|
  {
    Claims(At(evs, j), evs[j], id, token)
  }

  ghost predicate WithdrawsAt(evs: seq<Event>, j: nat, id: nat, token: nat)
    requires IsRun(evs) && j < |evs|
  {
    Withdraws(At(evs, j), evs[j], id, token)
  }

  /** The mail claimed at `j` had this token, and up to moment `k` nothing has withdrawn it. */
  ghost predicate StillOpen(evs: seq<Event>, j: nat, k: nat, id: nat, token: nat)
    requires IsRun(evs) && j < k <= |evs|
  {
    ClaimsAt(evs, j, id, token) && forall m :: j < m < k ==> !WithdrawsAt(evs, m, id, token)
  }

  lemma {:induction false} RunInv(evs: seq<Event>, k: nat)
    requires IsRun(evs) && k <= |evs|
    ensures Inv(At(evs, k)) && Timed(At(evs, k))
    decreases k
  {
    hide IsRun, At, Apply, Enabled, Inv, Timed;
    if k == 0 {
      AtEnds(evs);
      StartIsTimed();
    } else {
      RunInv(evs, k - 1);
      AtNext(evs, k - 1);
      ApplyInv(At(evs, k - 1), evs[k - 1]);
      ApplyTimed(At(evs, k - 1), evs[k - 1]);
    }
  }

  /** A token runs for fifteen minutes from its mail, and never longer than its intent. */
  predicate Timed(w: World) {
    && (forall id :: id in w.intents && w.intents[id].token.Some? ==>
          w.intents[id].sentAt.Some?
          && w.intents[id].tokenExpiresAt == Min(w.intents[id].sentAt.value + 900_000, w.intents[id].expiresAt))
    && (forall who :: who in w.senders && w.senders[who].HasRead? && w.senders[who].id in w.intents ==>
          w.senders[who].expiresAt == w.intents[w.senders[who].id].expiresAt)
  }

  lemma StartIsTimed()
    ensures Inv(START) && Timed(START)
  {
  }

  lemma ApplyTimed(w: World, ev: Event)
    requires Inv(w) && Timed(w) && Enabled(w, ev)
    ensures Timed(Apply(w, ev))
  {
    hide HistoryOk, RowOk;
  }

  lemma {:induction false} OpenIff(evs: seq<Event>, k: nat, id: nat, token: nat)
    requires IsRun(evs) && k <= |evs|
    ensures Open(At(evs, k), id, token) <==> exists j :: 0 <= j < k && StillOpen(evs, j, k, id, token)
    decreases k
  {
    hide IsRun, At, Apply, Enabled, Inv, Open, Claims, Withdraws;
    if k == 0 {
      AtEnds(evs);
      NothingOpen(id, token);
    } else {
      OpenIff(evs, k - 1, id, token);
      RunInv(evs, k - 1);
      AtNext(evs, k - 1);
      OpenStep(At(evs, k - 1), evs[k - 1], id, token);
      assert StillOpen(evs, k - 1, k, id, token) <==> ClaimsAt(evs, k - 1, id, token);
      forall j | 0 <= j < k - 1
        ensures StillOpen(evs, j, k, id, token) <==>
          StillOpen(evs, j, k - 1, id, token) && !WithdrawsAt(evs, k - 1, id, token)
      {
      }
      if Open(At(evs, k - 1), id, token) && !WithdrawsAt(evs, k - 1, id, token) {
        var j :| 0 <= j < k - 1 && StillOpen(evs, j, k - 1, id, token);
        assert StillOpen(evs, j, k, id, token);
      }
      if j :| 0 <= j < k && StillOpen(evs, j, k, id, token) {
        assert j < k - 1 ==> StillOpen(evs, j, k - 1, id, token);
      }
    }
  }

  lemma NothingOpen(id: nat, token: nat)
    ensures !Open(START, id, token)
  {
  }

  /** The row a claim has left, while nothing has withdrawn its token: its time, and the address of then. */
  lemma {:induction false} OpenRow(evs: seq<Event>, j: nat, k: nat, id: nat, token: nat)
    requires IsRun(evs) && j < k <= |evs| && StillOpen(evs, j, k, id, token)
    ensures Open(At(evs, k), id, token) && At(evs, k).intents[id].sentAt == Some(evs[j].now)
    ensures id in At(evs, j).intents && At(evs, k).intents[id].email == At(evs, j).intents[id].email
    decreases k
  {
    hide IsRun, At, Apply, Enabled, Inv, Withdraws;
    RunInv(evs, k - 1);
    AtNext(evs, k - 1);
    OpenStep(At(evs, k - 1), evs[k - 1], id, token);
    if j < k - 1 {
      assert StillOpen(evs, j, k - 1, id, token) && !WithdrawsAt(evs, k - 1, id, token);
      OpenRow(evs, j, k - 1, id, token);
    }
  }

  /** The step at `k` consumes the intent. */
  ghost predicate ConsumedAt(evs: seq<Event>, k: nat, id: nat)
    requires IsRun(evs) && k < |evs|
  {
    id in At(evs, k).intents && id in At(evs, k + 1).intents
    && At(evs, k).intents[id].consumedAt.None? && At(evs, k + 1).intents[id].consumedAt.Some?
  }

  lemma ConsumesStep(w: World, ev: Event, id: nat)
    requires Inv(w) && Enabled(w, ev) && id in w.intents && id in Apply(w, ev).intents
    ensures w.intents[id].consumedAt.None? && Apply(w, ev).intents[id].consumedAt.Some? <==>
      ev.Consumes? && ev.id == id && Open(w, id, ev.token)
      && ev.now < w.intents[id].expiresAt && ev.now < w.intents[id].tokenExpiresAt
  {
    assert RowOk(w, id);
    hide Inv, Proper, HistoryOk;
  }

  /**
   Every run: a token consumes its intent if and only if its mail was claimed before and nothing has withdrawn it
   since: no other mail, no new address, no failed delivery of its own, no use, no cleanup; within fifteen minutes of
   that claim, and before the intent expires.
   */
  lemma ConsumesIff(evs: seq<Event>, k: nat, id: nat)
    requires IsRun(evs) && k < |evs| && evs[k].Consumes? && evs[k].id == id && id in At(evs, k).intents
    ensures ConsumedAt(evs, k, id) <==>
      evs[k].now < At(evs, k).intents[id].expiresAt
      && exists j :: 0 <= j < k && StillOpen(evs, j, k, id, evs[k].token) && evs[k].now < evs[j].now + 15 * 60_000
  {
    RunInv(evs, k);
    AtNext(evs, k);
    OpenIff(evs, k, id, evs[k].token);
    ConsumesKeepsRow(At(evs, k), evs[k], id);
    ConsumesStep(At(evs, k), evs[k], id);
    forall j | 0 <= j < k && StillOpen(evs, j, k, id, evs[k].token)
      ensures At(evs, k).intents[id].tokenExpiresAt == Min(evs[j].now + 900_000, At(evs, k).intents[id].expiresAt)
    {
      OpenRow(evs, j, k, id, evs[k].token);
    }
    hide IsRun, At, Apply, Enabled, Inv, StillOpen;
  }

  lemma ConsumesKeepsRow(w: World, ev: Event, id: nat)
    requires Enabled(w, ev) && ev.Consumes? && id in w.intents
    ensures id in Apply(w, ev).intents
  {
  }

  /** A claim either takes the mail, or ends its send and leaves everything else as it was. */
  lemma ClaimsOrEnds(w: World, ev: Event)
    requires Inv(w) && Enabled(w, ev) && ev.SendClaims?
    ensures var next, s := Apply(w, ev), w.senders[ev.who];
      if Claims(w, ev, s.id, ev.token)
      then next.senders == w.senders[ev.who := HasClaimed(s.id, ev.token)]
      else next.senders == w.senders - {ev.who} && next.intents == w.intents && next.histories == w.histories
  {
    assert w.senders[ev.who].id in w.intents ==> RowOk(w, w.senders[ev.who].id);
    hide HistoryOk;
  }

  // ----- which address a consumed token has proven ----------------------------------------------------------------

  /** The address a mail claimed at `j` went to: the one its sender had read. */
  ghost function MailedTo(evs: seq<Event>, j: nat, id: nat, token: nat): nat
    requires IsRun(evs) && j < |evs| && ClaimsAt(evs, j, id, token)
  {
    At(evs, j).senders[evs[j].who].email
  }

  /**
   The token that consumes an intent was mailed to the address of the intent if and only if the address its sender had
   read was still that of the intent when the mail was claimed: the claim itself does not look.
   */
  lemma AddressIsProvenIff(evs: seq<Event>, k: nat, id: nat)
    requires IsRun(evs) && k < |evs| && evs[k].Consumes? && evs[k].id == id && ConsumedAt(evs, k, id)
    ensures exists j :: 0 <= j < k && StillOpen(evs, j, k, id, evs[k].token)
    ensures forall j :: 0 <= j < k && StillOpen(evs, j, k, id, evs[k].token) ==>
      (At(evs, k).intents[id].email == MailedTo(evs, j, id, evs[k].token) <==>
        At(evs, j).intents[id].email == MailedTo(evs, j, id, evs[k].token))
  {
    ConsumesIff(evs, k, id);
    forall j | 0 <= j < k && StillOpen(evs, j, k, id, evs[k].token)
      ensures At(evs, k).intents[id].email == At(evs, j).intents[id].email
    {
      OpenRow(evs, j, k, id, evs[k].token);
    }
  }

  lemma RunTo(evs: seq<Event>, at: World, ev: Event, next: World)
    requires Run(START, evs) == Some(at) && Enabled(at, ev) && Apply(at, ev) == next
    ensures Run(START, evs + [ev]) == Some(next)
  {
    hide Run;
    RunThen(START, evs, ev);
  }

  const HOUR := 60 * MINUTE

  function Only(row: Intent, claims: seq<Claim>, consumed: seq<nat>, senders: map<nat, Sender>, tokens: set<nat>): World {
    World(map[0 := row], map[0 := History(claims, consumed)], senders, tokens)
  }

  const READ: World := Only(Intent(2, HOUR, None, 0, None, 0, None), [], [], map[0 := HasRead(0, 1, HOUR)], {})

  lemma AddressMoves() returns (evs: seq<Event>)
    ensures Run(START, evs) == Some(READ)
  {
    var a := Only(Intent(1, HOUR, None, 0, None, 0, None), [], [], map[], {});
    var b := Only(Intent(1, HOUR, None, 0, None, 0, None), [], [], map[0 := HasRead(0, 1, HOUR)], {});
    assert Run(START, []) == Some(START);
    hide Run;
    RunTo([], START, Creates(0, 1, HOUR), a);
    evs := [] + [Creates(0, 1, HOUR)];
    RunTo(evs, a, SendReads(0, 0, 0), b);
    evs := evs + [SendReads(0, 0, 0)];
    RunTo(evs, b, AddressChanges(0, 2), READ);
    evs := evs + [AddressChanges(0, 2)];
  }

  /** The address is changed between the read and the claim of a send: the old address proves the new one. */
  lemma OldAddressProves() returns (evs: seq<Event>)
    ensures Run(START, evs).Some?
    ensures var w := Run(START, evs).value;
      && 0 in w.intents && w.intents[0].consumedAt.Some? && w.intents[0].email == 2
      && 0 in w.histories && w.histories[0].consumed == [5] && w.histories[0].claims == [Claim(5, 1, 0)]
  {
    var sent := Intent(2, HOUR, Some(5), 15 * MINUTE, Some(0), 1, None);
    var d := Only(sent, [Claim(5, 1, 0)], [], map[0 := HasClaimed(0, 5)], {5});
    var e := Only(sent.(consumedAt := Some(1), token := None), [Claim(5, 1, 0)], [5], map[0 := HasClaimed(0, 5)], {5});
    hide Run;
    evs := AddressMoves();
    assert {} + {5} == {5} && [] + [Claim(5, 1, 0)] == [Claim(5, 1, 0)] && [] + [5] == [5];
    assert Apply(READ, SendClaims(0, 5, 0)) == d;
    RunTo(evs, READ, SendClaims(0, 5, 0), d);
    evs := evs + [SendClaims(0, 5, 0)];
    assert Apply(d, Consumes(0, 5, 1)) == e;
    RunTo(evs, d, Consumes(0, 5, 1), e);
    evs := evs + [Consumes(0, 5, 1)];
  }
}
