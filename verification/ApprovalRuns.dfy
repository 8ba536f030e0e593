// Approvals across concurrent callers, failures and restarts.  A value is consumed by the
// stage it is passed to; what survives a restart is the slots, and of those only the ones
// already synced for certain.
module ApprovalRuns {
  import opened Wrappers
  import opened Approval

  type TokenId = nat

  // A value held by some caller.  Opening a slot and finishing with it are two steps.
  datatype Token =
    | Claimed(claim: Claim)
    | Consuming(claim: Claim, now: Time)
    | Consumed(consumption: Consumption)
    | Sealed(candidate: Candidate)
    | Granted(grant: Grant)
    | Prepared(intent: Intent)
    | Reserving(intent: Intent, now: Time)
    | Reserved(reservation: Reservation)

  // A slot is present or not, and once synced it stays.  The rest is history: the
  // consumption records and reservations ever returned, and the last record returned for
  // each challenge.
  datatype State = State(
    consumptionSlots: map<Digest, bool>,
    reservationSlots: map<Digest, bool>,
    tokens: map<TokenId, Token>,
    accepted: map<Digest, Consumption>,
    consumptions: seq<Consumption>,
    reservations: seq<Reservation>)

  const INITIAL := State(map[], map[], map[], map[], [], [])

  datatype Action =
    | Respond(t: TokenId, claim: Claim)
    | OpenConsumption(t: TokenId, now: Time)
    | FinishConsumption(t: TokenId)
    | Seal(t: TokenId, request: Digest, plan: Plan, preflight: Option<Preflight>, observed: Time, now: Time)
    | GrantOnce(t: TokenId, now: Time)
    | Prepare(t: TokenId, executable: Option<(Digest, Time)>, environment: Option<int>, now: Time)
    | OpenReservation(t: TokenId, now: Time)
    | FinishReserving(t: TokenId, now: Time)
    | Lose(t: TokenId)
    | Restart(keepConsumption: set<Digest>, keepReservation: set<Digest>)

  // ---------- The challenge behind a value ----------

  function Challenge(k: Token): Digest
  {
    match k
    case Claimed(c) => c.challenge
    case Consuming(c, _) => c.challenge
    case Consumed(c) => c.claim.challenge
    case Sealed(c) => c.proof.challenge
    case Granted(g) => g.candidate.proof.challenge
    case Prepared(i) => i.grant.candidate.proof.challenge
    case Reserving(i, _) => i.grant.candidate.proof.challenge
    case Reserved(r) => r.intent.grant.candidate.proof.challenge
  }

  // ---------- Steps ----------

  // Everything a step of one token reads and writes.
  datatype View = View(
    token: Option<Token>, slot: Option<bool>, accepted: Option<Consumption>, reservationSlot: Option<bool>)

  // A returned record or reservation, and what the token's slots become.
  datatype Outcome = Outcome(view: View, accepts: Option<Consumption>, reserves: Option<Reservation>)

  function IntentOf(k: Token): Digest
  {
    match k
    case Prepared(i) => i.digest
    case Reserving(i, _) => i.digest
    case _ => 0
  }

  predicate CanStep(H: Hash, v: View, a: Action)
  {
    match a
    case Respond(_, _) => v.token.None?
    case OpenConsumption(_, now) =>
      v.token.Some? && v.token.value.Claimed? && ValidateClaim(v.token.value.claim, now).None? && v.slot.None?
    case FinishConsumption(_) => v.token.Some? && v.token.value.Consuming?
    case Seal(_, request, plan, preflight, observed, now) =>
      v.token.Some? && v.token.value.Consumed?
        && SealCandidate(H, v.token.value.consumption, request, plan, preflight, observed, now).Ok?
    case GrantOnce(_, now) => v.token.Some? && v.token.value.Sealed? && GrantAt(H, v.token.value.candidate, now).Ok?
    case Prepare(_, executable, environment, now) =>
      v.token.Some? && v.token.value.Granted? && PrepareIntent(H, v.token.value.grant, executable, environment, now).Ok?
    case OpenReservation(_, now) =>
      v.token.Some? && v.token.value.Prepared? && ValidateIntent(H, v.token.value.intent, now).None?
        && v.reservationSlot.None?
    case FinishReserving(_, now) =>
      v.token.Some? && v.token.value.Reserving?
        && FinishReservation(H, v.token.value.intent, v.token.value.now, now).Ok?
    // Any refusal or failure: the value is gone, and an opened slot stays.
    case Lose(_) => v.token.Some?
    case Restart(_, _) => false
  }

  function Next(H: Hash, v: View, a: Action): Outcome
    requires CanStep(H, v, a)
  {
    match a
    case Respond(_, claim) => Outcome(v.(token := Some(Claimed(claim))), None, None)
    case OpenConsumption(_, now) => Outcome(v.(token := Some(Consuming(v.token.value.claim, now)), slot := Some(false)),
      None, None)
    case FinishConsumption(_) =>
      var c := Consume(H, v.token.value.claim, v.token.value.now);
      Outcome(v.(token := Some(Consumed(c)), slot := Some(true)), Some(c), None)
    case Seal(_, request, plan, preflight, observed, now) =>
      Outcome(v.(token := Some(Sealed(SealCandidate(H, v.token.value.consumption, request, plan, preflight, observed,
        now).value))), None, None)
    case GrantOnce(_, now) => Outcome(v.(token := Some(Granted(GrantAt(H, v.token.value.candidate, now).value))), None,
      None)
    case Prepare(_, executable, environment, now) =>
      Outcome(v.(token := Some(Prepared(PrepareIntent(H, v.token.value.grant, executable, environment, now).value))),
        None, None)
    case OpenReservation(_, now) =>
      Outcome(v.(token := Some(Reserving(v.token.value.intent, now)), reservationSlot := Some(false)), None, None)
    case FinishReserving(_, now) =>
      var r := FinishReservation(H, v.token.value.intent, v.token.value.now, now).value;
      Outcome(v.(token := Some(Reserved(r)), reservationSlot := Some(true)), None, Some(r))
    case Lose(_) => Outcome(v.(token := None), None, None)
  }

  function ChallengeOf(s: State, a: Action): Digest
  {
    if a.Respond? then a.claim.challenge else if a.Restart? || a.t !in s.tokens then 0 else Challenge(s.tokens[a.t])
  }

  function IntentKey(s: State, a: Action): Digest
  {
    if a.Restart? || a.t !in s.tokens then 0 else IntentOf(s.tokens[a.t])
  }

  function ViewOf(s: State, t: TokenId, challenge: Digest, intent: Digest): View
  {
    View(
      Lookup(s.tokens, t), Lookup(s.consumptionSlots, challenge), Lookup(s.accepted, challenge),
      Lookup(s.reservationSlots, intent))
  }

  function Here(s: State, a: Action): View
    requires !a.Restart?
  {
    ViewOf(s, a.t, ChallengeOf(s, a), IntentKey(s, a))
  }

  predicate Enabled(H: Hash, s: State, a: Action)
  {
    a.Restart? || CanStep(H, Here(s, a), a)
  }

  function Surviving(slots: map<Digest, bool>, keep: set<Digest>): map<Digest, bool>
  {
    map k | k in slots && (slots[k] || k in keep) :: slots[k]
  }

  function Apply(H: Hash, s: State, a: Action): State
    requires Enabled(H, s, a)
  {
    if a.Restart? then
      s.(consumptionSlots := Surviving(s.consumptionSlots, a.keepConsumption),
         reservationSlots := Surviving(s.reservationSlots, a.keepReservation),
         tokens := map[])
    else
      var challenge := ChallengeOf(s, a);
      var o := Next(H, Here(s, a), a);
      State(
        Put(s.consumptionSlots, challenge, o.view.slot),
        Put(s.reservationSlots, IntentKey(s, a), o.view.reservationSlot),
        Put(s.tokens, a.t, o.view.token),
        if o.accepts.Some? then s.accepted[challenge := o.accepts.value] else s.accepted,
        if o.accepts.Some? then s.consumptions + [o.accepts.value] else s.consumptions,
        if o.reserves.Some? then s.reservations + [o.reserves.value] else s.reservations)
  }

  ghost predicate Reaches(H: Hash, actions: seq<Action>, t: State)
  {
    if actions == [] then t == INITIAL
    else
      var n := |actions| - 1;
      exists s :: Reaches(H, actions[..n], s) && Enabled(H, s, actions[n]) && t == Apply(H, s, actions[n])
  }
}
