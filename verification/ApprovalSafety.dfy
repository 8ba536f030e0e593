// What every run of the approval pipeline keeps.
module ApprovalSafety {
  import opened Wrappers
  import opened Approval
  import opened ApprovalRuns

  // ---------- The clock chain ----------

  // Everything a value says about its past follows from the consumption record it
  // descends from, in order and inside that record's window.
  predicate FromRecord(c: Consumption, p: Proof)
  {
    && p.challenge == c.claim.challenge && p.request == c.claim.request && p.consumption == c.record
    && p.challenged == c.claim.preflight && p.response == c.claim.response
    && p.responded == c.claim.responded && p.consumed == c.consumed
    && c.claim.responded <= c.consumed <= p.observed <= p.verified < c.claim.expires
  }

  predicate SealedWell(H: Hash, c: Consumption, k: Candidate)
  {
    FromRecord(c, k.proof) && k.expires == c.claim.expires && k.digest == CandidateDigest(H, k.proof, k.expires)
  }

  predicate GrantedWell(H: Hash, c: Consumption, g: Grant)
  {
    && SealedWell(H, c, g.candidate) && GrantIntact(H, g)
    && g.candidate.proof.report == g.candidate.plan.report && g.candidate.proof.inventory == g.candidate.plan.inventory
    && g.candidate.proof.executable == g.candidate.plan.executable
    && g.candidate.proof.verified <= g.granted < c.claim.expires
  }

  predicate PreparedWell(H: Hash, c: Consumption, i: Intent)
  {
    && GrantedWell(H, c, i.grant) && i.expires == c.claim.expires
    && i.digest == IntentDigest(H, i.grant, i.executable, i.observed, i.environment, i.prepared)
    && i.grant.granted <= i.observed <= i.prepared < c.claim.expires
  }

  predicate ReservedWell(H: Hash, c: Consumption, r: Reservation)
  {
    && PreparedWell(H, c, r.intent)
    && r.digest == ReservationDigest(H, r.intent, r.reserved)
    && r.intent.prepared <= r.reserved <= r.durable < c.claim.expires
  }

  predicate RecordedWell(H: Hash, c: Consumption)
  {
    c.claim.responded <= c.consumed < c.claim.expires && c.record == H(ConsumptionText(c.claim, c.consumed))
  }

  // ---------- One token ----------

  // A value past consumption descends from the record returned for its challenge.
  predicate TokenWell(H: Hash, v: View)
    requires v.token.Some?
  {
    match v.token.value
    case Claimed(_) => true
    case Consuming(c, now) => c.responded <= now < c.expires && v.slot.Some? && v.accepted.None?
    case Consumed(c) => v.accepted == Some(c)
    case Sealed(k) => v.accepted.Some? && SealedWell(H, v.accepted.value, k)
    case Granted(g) => v.accepted.Some? && GrantedWell(H, v.accepted.value, g)
    case Prepared(i) => v.accepted.Some? && PreparedWell(H, v.accepted.value, i)
    case Reserving(i, now) => v.accepted.Some? && PreparedWell(H, v.accepted.value, i) && i.prepared <= now < i.expires
      && v.reservationSlot.Some?
    case Reserved(r) => v.accepted.Some? && ReservedWell(H, v.accepted.value, r)
  }

  // A returned record leaves a slot that survives every restart.
  predicate SlotWell(H: Hash, v: View)
  {
    v.accepted.Some? ==> v.slot == Some(true) && RecordedWell(H, v.accepted.value)
  }

  // The one live value that carries a challenge's approval.
  predicate Carries(k: Token) { !k.Claimed? }

  // The view after the step, with a returned record taken into account.
  function After(o: Outcome): View { if o.accepts.Some? then o.view.(accepted := o.accepts) else o.view }

  predicate TokenLocal(H: Hash, v: View, o: Outcome)
  {
    && SlotWell(H, After(o))
    && (o.view.token.Some? ==> TokenWell(H, After(o)))
    && o.view.accepted == v.accepted
    && (v.token.Some? && o.view.token.Some? ==> Challenge(o.view.token.value) == Challenge(v.token.value))
    && (v.token.None? ==> o.view.token.Some? && o.view.token.value.Claimed?)
  }

  lemma TokenStep(H: Hash, v: View, a: Action)
    requires CanStep(H, v, a) && SlotWell(H, v) && (v.token.Some? ==> TokenWell(H, v))
    ensures TokenLocal(H, v, Next(H, v, a))
  {
    hide ProofDigest, CandidateDigest, GrantDigest, IntentDigest, ReservationDigest;
  }

  // A challenge's approval is taken up only when its slot was free, and recorded by the
  // value that took it up.
  predicate ChallengeLocal(v: View, o: Outcome)
  {
    && (o.view.token.Some? && Carries(o.view.token.value) ==> (v.token.Some? && Carries(v.token.value)) || v.slot.None?)
    && (v.slot.Some? ==> o.view.slot.Some? && (v.slot.value ==> o.view.slot == v.slot))
    && (o.accepts.Some? ==>
      v.token.Some? && v.token.value.Consuming? && o.accepts.value.claim.challenge == Challenge(v.token.value))
  }

  lemma ChallengeStep(H: Hash, v: View, a: Action)
    requires CanStep(H, v, a)
    ensures ChallengeLocal(v, Next(H, v, a))
  {
  }

  // So is an intent's reservation.
  predicate IntentLocal(v: View, o: Outcome)
  {
    && (v.reservationSlot.Some? ==>
      o.view.reservationSlot.Some? && (v.reservationSlot.value ==> o.view.reservationSlot == v.reservationSlot))
    && (o.view.token.Some? && o.view.token.value.Reserving? ==>
          v.reservationSlot.None? && v.token.Some? && v.token.value.Prepared?
            && v.token.value.intent == o.view.token.value.intent)
    && (o.reserves.Some? ==>
          && v.token.Some? && v.token.value.Reserving? && v.token.value.intent == o.reserves.value.intent
          && o.view.token == Some(Reserved(o.reserves.value)) && o.view.reservationSlot == Some(true))
    && (v.token.Some? && v.token.value.Reserved? && o.view.token.Some? ==> o.view.token == v.token)
  }

  lemma IntentStep(H: Hash, v: View, a: Action)
    requires CanStep(H, v, a)
    ensures IntentLocal(v, Next(H, v, a))
  {
  }

  // ---------- Every reachable state ----------

  function MyView(s: State, t: TokenId): View
    requires t in s.tokens
  {
    ViewOf(s, t, Challenge(s.tokens[t]), IntentOf(s.tokens[t]))
  }

  ghost predicate TokensWell(H: Hash, s: State)
  {
    forall t :: t in s.tokens ==> TokenWell(H, MyView(s, t))
  }

  ghost predicate SlotsWell(H: Hash, s: State)
  {
    forall d :: d in s.accepted ==>
      Lookup(s.consumptionSlots, d) == Some(true) && RecordedWell(H, s.accepted[d])
        && s.accepted[d].claim.challenge == d
  }

  ghost predicate OneCarrier(s: State)
  {
    forall t, u :: t in s.tokens && u in s.tokens && t != u && Carries(s.tokens[t]) && Carries(s.tokens[u]) ==>
      Challenge(s.tokens[t]) != Challenge(s.tokens[u])
  }

  ghost predicate OneReserver(s: State)
  {
    forall t, u :: t in s.tokens && u in s.tokens && t != u && s.tokens[t].Reserving? && s.tokens[u].Reserving? ==>
      s.tokens[t].intent.digest != s.tokens[u].intent.digest
  }

  ghost predicate ConsumptionsWell(s: State)
  {
    && (forall i :: 0 <= i < |s.consumptions| ==>
      Lookup(s.accepted, s.consumptions[i].claim.challenge) == Some(s.consumptions[i]))
    && (forall i, j :: 0 <= i < j < |s.consumptions| ==>
      s.consumptions[i].claim.challenge != s.consumptions[j].claim.challenge)
  }

  function Reserver(r: Reservation): Digest { r.intent.grant.candidate.proof.challenge }

  ghost predicate ReservationWell(H: Hash, s: State, r: Reservation)
  {
    && Reserver(r) in s.accepted
    && ReservedWell(H, s.accepted[Reserver(r)], r)
    && Lookup(s.reservationSlots, r.intent.digest) == Some(true)
    && (forall t :: t in s.tokens && Carries(s.tokens[t]) && Challenge(s.tokens[t]) == Reserver(r) ==>
      s.tokens[t].Reserved?)
    && (forall t :: t in s.tokens && s.tokens[t].Reserving? ==> s.tokens[t].intent.digest != r.intent.digest)
  }

  ghost predicate ReservationsWell(H: Hash, s: State)
  {
    && (forall i :: 0 <= i < |s.reservations| ==> ReservationWell(H, s, s.reservations[i]))
    && (forall i, j :: 0 <= i < j < |s.reservations| ==>
          Reserver(s.reservations[i]) != Reserver(s.reservations[j])
            && s.reservations[i].intent.digest != s.reservations[j].intent.digest)
  }

  ghost predicate Safe(H: Hash, s: State)
  {
    TokensWell(H, s) && SlotsWell(H, s) && OneCarrier(s) && OneReserver(s) && ConsumptionsWell(s)
      && ReservationsWell(H, s)
  }

  // ---------- One step other than a restart ----------

  ghost predicate Frame(s: State, a: Action, t: State, o: Outcome)
    requires !a.Restart?
  {
    && var d := ChallengeOf(s, a);
    && var i := IntentKey(s, a);
    && Lookup(t.tokens, a.t) == o.view.token
    && (forall u :: u != a.t ==> Lookup(t.tokens, u) == Lookup(s.tokens, u))
    && Lookup(t.consumptionSlots, d) == o.view.slot
    && (forall e :: e != d ==> Lookup(t.consumptionSlots, e) == Lookup(s.consumptionSlots, e))
    && Lookup(t.accepted, d) == After(o).accepted
    && (forall e :: e != d ==> Lookup(t.accepted, e) == Lookup(s.accepted, e))
    && Lookup(t.reservationSlots, i) == o.view.reservationSlot
    && (forall j :: j != i ==> Lookup(t.reservationSlots, j) == Lookup(s.reservationSlots, j))
    && t.consumptions == s.consumptions + (if o.accepts.Some? then [o.accepts.value] else [])
    && t.reservations == s.reservations + (if o.reserves.Some? then [o.reserves.value] else [])
  }

  ghost predicate Stepped(H: Hash, s: State, a: Action, t: State, o: Outcome)
  {
    && !a.Restart?
    && Frame(s, a, t, o)
    && TokenLocal(H, Here(s, a), o) && ChallengeLocal(Here(s, a), o) && IntentLocal(Here(s, a), o)
    && (o.view.token.Some? ==> Challenge(o.view.token.value) == ChallengeOf(s, a))
    && (a.t in s.tokens ==> Challenge(s.tokens[a.t]) == ChallengeOf(s, a) && IntentOf(s.tokens[a.t]) == IntentKey(s, a))
  }

  lemma ApplyFrame(H: Hash, s: State, a: Action)
    requires Enabled(H, s, a) && !a.Restart?
    requires Next(H, Here(s, a), a).view.accepted == Here(s, a).accepted
    ensures Frame(s, a, Apply(H, s, a), Next(H, Here(s, a), a))
  {
    hide CanStep, Next;
  }

  lemma FirstToken(H: Hash, s: State, a: Action)
    requires Enabled(H, s, a) && !a.Restart?
    ensures a.t in s.tokens ==> !a.Respond?
    ensures a.t !in s.tokens ==>
      Next(H, Here(s, a), a).view.token.Some? && Challenge(Next(H, Here(s, a), a).view.token.value) == ChallengeOf(s, a)
  {
  }

  lemma SafeStepped(H: Hash, s: State, a: Action)
    requires Safe(H, s) && Enabled(H, s, a) && !a.Restart?
    ensures Stepped(H, s, a, Apply(H, s, a), Next(H, Here(s, a), a))
  {
    var v := Here(s, a);
    assert SlotWell(H, v);
    FirstToken(H, s, a);
    assert v.token.Some? ==> v == MyView(s, a.t);
    TokenStep(H, v, a);
    ChallengeStep(H, v, a);
    IntentStep(H, v, a);
    hide CanStep, Next, Apply, Safe, TokenWell, SlotWell, ChallengeLocal, IntentLocal;
    ApplyFrame(H, s, a);
    hide Frame;
  }

  // ---------- Each invariant over one step ----------

  // A value that does not move and the step of another.
  lemma BystanderWell(H: Hash, s: State, a: Action, t: State, o: Outcome, u: TokenId)
    requires Safe(H, s) && Stepped(H, s, a, t, o) && u in s.tokens && u != a.t
    ensures u in t.tokens && t.tokens[u] == s.tokens[u] && TokenWell(H, MyView(t, u))
  {
    assert Lookup(t.tokens, u) == Lookup(s.tokens, u);
    assert TokenWell(H, MyView(s, u));
    var k := s.tokens[u];
    if Carries(k) && Challenge(k) == ChallengeOf(s, a) { assert o.accepts.None? by { assert OneCarrier(s); } }
    hide SealedWell, GrantedWell, PreparedWell, ReservedWell, TokenLocal;
  }

  lemma TokensStep(H: Hash, s: State, a: Action, t: State, o: Outcome)
    requires Safe(H, s) && Stepped(H, s, a, t, o)
    ensures TokensWell(H, t)
  {
    forall u | u in t.tokens ensures TokenWell(H, MyView(t, u)) {
      if u != a.t {
        assert Lookup(t.tokens, u) == Lookup(s.tokens, u);
        BystanderWell(H, s, a, t, o, u);
      } else {
        ActorWell(H, s, a, t, o);
      }
    }
  }

  lemma ActorWell(H: Hash, s: State, a: Action, t: State, o: Outcome)
    requires Stepped(H, s, a, t, o) && a.t in t.tokens
    ensures TokenWell(H, MyView(t, a.t))
  {
    hide SealedWell, GrantedWell, PreparedWell, ReservedWell;
  }

  lemma SlotsStep(H: Hash, s: State, a: Action, t: State, o: Outcome)
    requires Safe(H, s) && Stepped(H, s, a, t, o)
    ensures SlotsWell(H, t)
  {
    hide RecordedWell, TokenWell, IntentLocal;
    forall d | d in t.accepted
      ensures Lookup(t.consumptionSlots, d) == Some(true) && RecordedWell(H, t.accepted[d])
        && t.accepted[d].claim.challenge == d
    {
      assert d != ChallengeOf(s, a) ==> Lookup(t.accepted, d) == Lookup(s.accepted, d);
    }
  }

  lemma CarrierStep(H: Hash, s: State, a: Action, t: State, o: Outcome)
    requires Safe(H, s) && Stepped(H, s, a, t, o)
    ensures OneCarrier(t)
  {
    forall u | u in s.tokens && Carries(s.tokens[u]) ensures Lookup(s.consumptionSlots, Challenge(s.tokens[u])).Some? {
      CarrierHasSlot(H, s, u);
    }
    hide TokenWell, TokenLocal, IntentLocal;
    forall u, w | u in t.tokens && w in t.tokens && u != w && Carries(t.tokens[u]) && Carries(t.tokens[w])
      ensures Challenge(t.tokens[u]) != Challenge(t.tokens[w])
    {
      assert u != a.t ==> Lookup(t.tokens, u) == Lookup(s.tokens, u);
      assert w != a.t ==> Lookup(t.tokens, w) == Lookup(s.tokens, w);
    }
  }

  lemma CarrierHasSlot(H: Hash, s: State, u: TokenId)
    requires TokensWell(H, s) && SlotsWell(H, s) && u in s.tokens && Carries(s.tokens[u])
    ensures Lookup(s.consumptionSlots, Challenge(s.tokens[u])).Some?
  {
    assert TokenWell(H, MyView(s, u));
  }

  lemma ReserverHasSlot(H: Hash, s: State, u: TokenId)
    requires TokensWell(H, s) && u in s.tokens && s.tokens[u].Reserving?
    ensures Lookup(s.reservationSlots, s.tokens[u].intent.digest).Some?
  {
    assert TokenWell(H, MyView(s, u));
  }

  // Who reserves after the step either did before or found its slot free.
  lemma ReserverBefore(H: Hash, s: State, a: Action, t: State, o: Outcome, u: TokenId)
    requires Stepped(H, s, a, t, o) && u in t.tokens && t.tokens[u].Reserving?
    ensures if u != a.t then u in s.tokens && s.tokens[u] == t.tokens[u]
      else Lookup(s.reservationSlots, t.tokens[u].intent.digest).None?
  {
    hide TokenLocal, ChallengeLocal;
    if u != a.t { assert Lookup(t.tokens, u) == Lookup(s.tokens, u); }
  }

  lemma ReserverStep(H: Hash, s: State, a: Action, t: State, o: Outcome)
    requires Safe(H, s) && Stepped(H, s, a, t, o)
    ensures OneReserver(t)
  {
    forall u, w | u in t.tokens && w in t.tokens && u != w && t.tokens[u].Reserving? && t.tokens[w].Reserving?
      ensures t.tokens[u].intent.digest != t.tokens[w].intent.digest
    {
      hide Stepped, TokensWell;
      ReserverBefore(H, s, a, t, o, u);
      ReserverBefore(H, s, a, t, o, w);
      if u != a.t { ReserverHasSlot(H, s, u); }
      if w != a.t { ReserverHasSlot(H, s, w); }
    }
  }

  lemma ConsumptionsStep(H: Hash, s: State, a: Action, t: State, o: Outcome)
    requires Safe(H, s) && Stepped(H, s, a, t, o)
    ensures ConsumptionsWell(t)
  {
    assert o.accepts.Some? ==> Lookup(s.accepted, ChallengeOf(s, a)).None? by {
      if o.accepts.Some? { assert TokenWell(H, MyView(s, a.t)); }
    }
    hide TokenWell, TokenLocal, IntentLocal;
    forall i | 0 <= i < |t.consumptions|
      ensures Lookup(t.accepted, t.consumptions[i].claim.challenge) == Some(t.consumptions[i])
    {
      var d := t.consumptions[i].claim.challenge;
      assert d != ChallengeOf(s, a) ==> Lookup(t.accepted, d) == Lookup(s.accepted, d);
    }
  }

  // A reservation returned before this step.
  lemma OldReservation(H: Hash, s: State, a: Action, t: State, o: Outcome, r: Reservation)
    requires Safe(H, s) && Stepped(H, s, a, t, o) && ReservationWell(H, s, r)
    ensures ReservationWell(H, t, r)
    ensures o.reserves.Some? ==>
      Reserver(o.reserves.value) != Reserver(r) && o.reserves.value.intent.digest != r.intent.digest
  {
    var d := Reserver(r);
    hide ReservedWell;
    assert o.view.accepted == Here(s, a).accepted;
    hide TokenLocal;
    assert Lookup(s.consumptionSlots, d) == Some(true);
    assert o.accepts.Some? ==> Lookup(s.accepted, ChallengeOf(s, a)).None? by {
      if o.accepts.Some? { assert TokenWell(H, MyView(s, a.t)); }
    }
    hide TokenWell;
    assert d != ChallengeOf(s, a) ==> Lookup(t.accepted, d) == Lookup(s.accepted, d);
    assert Lookup(t.accepted, d) == Lookup(s.accepted, d);
    assert r.intent.digest != IntentKey(s, a) ==>
      Lookup(t.reservationSlots, r.intent.digest) == Lookup(s.reservationSlots, r.intent.digest);
    forall u | u in t.tokens && Carries(t.tokens[u]) && Challenge(t.tokens[u]) == d ensures t.tokens[u].Reserved? {
      assert u != a.t ==> Lookup(t.tokens, u) == Lookup(s.tokens, u);
    }
    forall u | u in t.tokens && t.tokens[u].Reserving? ensures t.tokens[u].intent.digest != r.intent.digest {
      assert u != a.t ==> Lookup(t.tokens, u) == Lookup(s.tokens, u);
    }
  }

  // The reservation this step returns.
  lemma NewReservation(H: Hash, s: State, a: Action, t: State, o: Outcome)
    requires Safe(H, s) && Stepped(H, s, a, t, o) && o.reserves.Some?
    requires TokensWell(H, t) && OneCarrier(t)
    ensures ReservationWell(H, t, o.reserves.value)
  {
    var r := o.reserves.value;
    assert a.t in t.tokens && t.tokens[a.t] == Reserved(r);
    assert TokenWell(H, MyView(t, a.t));
    hide ReservedWell, TokenLocal;
    assert s.tokens[a.t].Reserving?;
    forall u | u in t.tokens && t.tokens[u].Reserving? ensures t.tokens[u].intent.digest != r.intent.digest {
      assert u != a.t ==> Lookup(t.tokens, u) == Lookup(s.tokens, u);
      assert OneReserver(s);
    }
  }

  lemma ReservationsStep(H: Hash, s: State, a: Action, t: State, o: Outcome)
    requires Safe(H, s) && Stepped(H, s, a, t, o) && TokensWell(H, t) && OneCarrier(t)
    ensures ReservationsWell(H, t)
  {
    assert ReservationsWell(H, s);
    assert t.reservations == s.reservations + (if o.reserves.Some? then [o.reserves.value] else []);
    hide Safe;
    forall i | 0 <= i < |t.reservations| ensures ReservationWell(H, t, t.reservations[i]) {
      if i < |s.reservations| {
        OldReservation(H, s, a, t, o, s.reservations[i]);
      } else {
        NewReservation(H, s, a, t, o);
      }
    }
    forall i | 0 <= i < |s.reservations|
      ensures o.reserves.Some? ==>
        Reserver(o.reserves.value) != Reserver(s.reservations[i])
          && o.reserves.value.intent.digest != s.reservations[i].intent.digest
    {
      OldReservation(H, s, a, t, o, s.reservations[i]);
    }
    hide Stepped, ReservationWell;
  }

  lemma RestartStep(H: Hash, s: State, a: Action)
    requires Safe(H, s) && a.Restart?
    ensures Safe(H, Apply(H, s, a))
  {
    var t := Apply(H, s, a);
    hide ReservedWell, RecordedWell;
    forall d | d in t.accepted ensures Lookup(t.consumptionSlots, d) == Some(true) {
      assert Lookup(s.consumptionSlots, d) == Some(true);
    }
    forall i | 0 <= i < |t.reservations| ensures ReservationWell(H, t, t.reservations[i]) {
      assert ReservationWell(H, s, s.reservations[i]);
    }
  }

  lemma SafeStep(H: Hash, s: State, a: Action)
    requires Safe(H, s) && Enabled(H, s, a)
    ensures Safe(H, Apply(H, s, a))
  {
    if a.Restart? {
      RestartStep(H, s, a);
    } else {
      SafeStepped(H, s, a);
      var t, o := Apply(H, s, a), Next(H, Here(s, a), a);
      TokensStep(H, s, a, t, o);
      SlotsStep(H, s, a, t, o);
      CarrierStep(H, s, a, t, o);
      ReserverStep(H, s, a, t, o);
      ConsumptionsStep(H, s, a, t, o);
      ReservationsStep(H, s, a, t, o);
      SafeFromParts(H, t);
      hide *;
    }
  }

  lemma SafeFromParts(H: Hash, t: State)
    requires TokensWell(H, t) && SlotsWell(H, t) && OneCarrier(t) && OneReserver(t) && ConsumptionsWell(t)
      && ReservationsWell(H, t)
    ensures Safe(H, t)
  {
  }

  lemma {:induction false} RunIsSafe(H: Hash, actions: seq<Action>, t: State)
    requires Reaches(H, actions, t)
    ensures Safe(H, t)
  {
    if actions != [] {
      var n := |actions| - 1;
      var s :| Reaches(H, actions[..n], s) && Enabled(H, s, actions[n]) && t == Apply(H, s, actions[n]);
      hide Safe, Enabled, Apply;
      RunIsSafe(H, actions[..n], s);
      SafeStep(H, s, actions[n]);
    }
  }

  // ---------- What it means ----------

  // Across restarts, concurrent callers and failures: each challenge yields at most one
  // consumption record and at most one reservation, and no intent is reserved twice.
  lemma OneApprovalOneReservation(H: Hash, actions: seq<Action>, t: State)
    requires Reaches(H, actions, t)
    ensures forall i, j :: 0 <= i < j < |t.consumptions| ==>
      t.consumptions[i].claim.challenge != t.consumptions[j].claim.challenge
    ensures forall i, j :: 0 <= i < j < |t.reservations| ==>
      Reserver(t.reservations[i]) != Reserver(t.reservations[j])
        && t.reservations[i].intent.digest != t.reservations[j].intent.digest
  {
    RunIsSafe(H, actions, t);
  }

  // Every reservation descends from the one consumption record of its challenge, through
  // one plan, and its clocks are in order up to that challenge's own expiry.
  lemma ReservationClockChain(H: Hash, actions: seq<Action>, t: State, r: Reservation)
    requires Reaches(H, actions, t) && r in t.reservations
    ensures Reserver(r) in t.accepted
    ensures var c := t.accepted[Reserver(r)];
      var g := r.intent.grant;
      var p := g.candidate.proof;
      && p.challenge == c.claim.challenge && p.request == c.claim.request && p.response == c.claim.response
        && p.consumption == c.record
      && c.record == H(ConsumptionText(c.claim, c.consumed))
      && p.report == g.candidate.plan.report && p.inventory == g.candidate.plan.inventory
        && p.executable == g.candidate.plan.executable
      && c.claim.responded <= c.consumed <= p.observed <= p.verified <= g.granted <= r.intent.observed
      && r.intent.observed <= r.intent.prepared <= r.reserved <= r.durable < c.claim.expires
  {
    RunIsSafe(H, actions, t);
    var i :| 0 <= i < |t.reservations| && t.reservations[i] == r;
    assert ReservationWell(H, t, t.reservations[i]);
  }

  // The integrity checks later stages repeat never refuse a value the pipeline made: a
  // candidate is refused only for its plan or the clock, a grant and an intent only for
  // their observations or the clock.
  lemma IntegrityChecksNeverFire(H: Hash, actions: seq<Action>, s: State, t: TokenId, now: Time)
    requires Reaches(H, actions, s) && t in s.tokens
    ensures match s.tokens[t]
      case Sealed(k) =>
        GrantAt(H, k, now) == Err(CandidateInvalid) <==>
          k.proof.report != k.plan.report || k.proof.inventory != k.plan.inventory
            || k.proof.executable != k.plan.executable
      case Granted(g) => GrantIntact(H, g)
      case Prepared(i) => ValidateIntent(H, i, now) != Some(InvalidLaunchIntent)
      case _ => true
  {
    RunIsSafe(H, actions, s);
    assert TokenWell(H, MyView(s, t));
  }
}
