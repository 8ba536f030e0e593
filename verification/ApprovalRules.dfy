// Exactly which claims the stages carry through, one after the other, to a reservation.
module ApprovalRules {
  import opened Wrappers
  import opened Approval

  // What the stages are given besides the claim: the request and plan to run, what the fresh
  // preflight and the second look at the executable found, the assembled environment, and
  // the clock at every stage.
  datatype Inputs = Inputs(
    consumed: Time,
    request: Digest,
    plan: Plan,
    preflight: Option<Preflight>,
    observed: Time,
    verified: Time,
    granted: Time,
    executable: Option<(Digest, Time)>,
    environment: Option<int>,
    prepared: Time,
    reserved: Time,
    durable: Time)

  // One stage after the other; any refusal ends it.
  function Stages(H: Hash, claim: Claim, i: Inputs): Option<Reservation>
  {
    if ValidateClaim(claim, i.consumed).Some? then None
    else
      match SealCandidate(H, Consume(H, claim, i.consumed), i.request, i.plan, i.preflight, i.observed, i.verified)
      case Err(_) => None
      case Ok(candidate) =>
        match GrantAt(H, candidate, i.granted)
        case Err(_) => None
        case Ok(grant) =>
          match PrepareIntent(H, grant, i.executable, i.environment, i.prepared)
          case Err(_) => None
          case Ok(intent) =>
            if ValidateIntent(H, intent, i.reserved).Some? then None
            else
              match FinishReservation(H, intent, i.reserved, i.durable)
              case Err(_) => None
              case Ok(reservation) => Some(reservation)
  }

  // The plan was approved for this request, its fresh preflight found what it says, and the
  // executable and the environment are there.
  predicate Confirmed(claim: Claim, i: Inputs)
  {
    && i.request == claim.request && i.executable.Some? && i.environment.Some?
    && i.preflight.Some? && i.preflight.value.report == i.plan.report
    && i.preflight.value.inventory == i.plan.inventory && i.preflight.value.executable == i.plan.executable
  }

  // Every time is no earlier than the one before, and the last is before the expiry.
  predicate InOrder(times: seq<Time>, expires: Time)
  {
    (forall j :: 0 < j < |times| ==> times[j - 1] <= times[j]) && (times != [] ==> times[|times| - 1] < expires)
  }

  function Times(claim: Claim, i: Inputs): seq<Time>
    requires i.executable.Some?
  {
    [claim.responded, i.consumed, i.observed, i.verified, i.granted, i.executable.value.1, i.prepared, i.reserved,
      i.durable]
  }

  lemma Ordered(claim: Claim, i: Inputs)
    requires i.executable.Some?
    ensures InOrder(Times(claim, i), claim.expires) <==>
      claim.responded <= i.consumed <= i.observed <= i.verified <= i.granted <= i.executable.value.1 <= i.prepared
        <= i.reserved <= i.durable < claim.expires
  {
    var t := Times(claim, i);
    if InOrder(t, claim.expires) {
      assert t[0] <= t[1] && t[1] <= t[2] && t[2] <= t[3] && t[3] <= t[4];
      assert t[4] <= t[5] && t[5] <= t[6] && t[6] <= t[7] && t[7] <= t[8];
    }
  }

  // A claim becomes a reservation exactly when its plan is confirmed and every time is in
  // order before the claim's expiry; and the reservation is of that claim, plan and time.
  lemma ReservesExactly(H: Hash, claim: Claim, i: Inputs)
    ensures Stages(H, claim, i).Some? <==> Confirmed(claim, i) && InOrder(Times(claim, i), claim.expires)
    ensures Stages(H, claim, i).Some? ==>
      var r := Stages(H, claim, i).value;
      var candidate := r.intent.grant.candidate;
      && candidate.plan == i.plan && candidate.proof.challenge == claim.challenge
      && candidate.proof.request == claim.request && candidate.proof.response == claim.response
      && candidate.proof.challenged == claim.preflight && candidate.proof.refreshed == i.preflight.value.digest
      && r.intent.executable == i.executable.value.0 && r.intent.environment == i.environment.value
      && r.intent.expires == claim.expires && r.reserved == i.reserved && r.durable == i.durable
  {
    if i.executable.Some? { Ordered(claim, i); }
    hide ProofDigest, CandidateDigest, GrantDigest, IntentDigest, ReservationDigest, InOrder, Times;
  }
}
