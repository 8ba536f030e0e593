// The stages of a one-shot approval: claim, consumption, proof, candidate, grant, intent,
// reservation.  Each stage takes the value before it and the clock, and either refuses or
// seals a new value under a digest.
module Approval {
  import opened Wrappers

  type Digest = int
  type Time = nat

  datatype Claim = Claim(
    challenge: Digest, request: Digest, preflight: Digest, response: Digest, terminal: int, responded: Time,
    expires: Time)

  datatype Consumption = Consumption(claim: Claim, consumed: Time, record: Digest)

  // A plan is opaque beyond the three digests later stages compare.
  datatype Plan = Plan(report: Digest, inventory: Digest, executable: Digest)

  // What a fresh preflight found.
  datatype Preflight = Preflight(digest: Digest, report: Digest, inventory: Digest, executable: Digest)

  datatype Proof = Proof(
    challenge: Digest,
    request: Digest,
    consumption: Digest,
    challenged: Digest,
    refreshed: Digest,
    response: Digest,
    report: Digest,
    inventory: Digest,
    executable: Digest,
    responded: Time,
    consumed: Time,
    observed: Time,
    verified: Time,
    digest: Digest)

  datatype Candidate = Candidate(plan: Plan, proof: Proof, expires: Time, digest: Digest)

  datatype Grant = Grant(candidate: Candidate, granted: Time, expires: Time, digest: Digest)

  datatype Intent = Intent(grant: Grant, executable: Digest, observed: Time, environment: int, prepared: Time,
    expires: Time, digest: Digest)

  datatype Reservation = Reservation(intent: Intent, reserved: Time, durable: Time, digest: Digest)

  // The texts that are hashed, one per stage.
  datatype Text =
    | ConsumptionText(claim: Claim, consumed: Time)
    | ProofText(fields: Proof)
    | CandidateText(request: Digest, proof: Digest, report: Digest, inventory: Digest, executable: Digest,
      expires: Time)
    | GrantText(candidate: Digest, proof: Digest, report: Digest, granted: Time, expires: Time)
    | IntentText(grant: Digest, executable: Digest, observed: Time, prepared: Time, expires: Time, environment: int)
    | ReservationText(
        intent: Digest, grant: Digest, candidate: Digest, proof: Digest, executable: Digest, prepared: Time,
        reserved: Time, expires: Time)

  type Hash = Text -> Digest

  datatype Refusal =
    | InvalidResponseClaim
    | ResponseExpired
    | AlreadyConsumed
    | InvalidConsumptionRecord
    | RequestMismatch
    | ObservationOrderingInvalid
    | VerificationTimeInvalid
    | FreshPreflightRejected
    | CandidateInvalid
    | ClockInvalid
    | CandidateExpired
    | GrantInvalid
    | GrantExpired
    | ExecutableInvalid
    | EnvironmentInvalid
    | InvalidLaunchIntent
    | LaunchIntentExpired
    | AlreadyReserved

  // ---------- Digests ----------

  // The proof's text holds every field but the digest.
  function ProofDigest(H: Hash, p: Proof): Digest { H(ProofText(p.(digest := 0))) }

  function CandidateDigest(H: Hash, p: Proof, expires: Time): Digest
  {
    H(CandidateText(p.request, p.digest, p.report, p.inventory, p.executable, expires))
  }

  function GrantDigest(H: Hash, c: Candidate, granted: Time): Digest
  {
    H(GrantText(c.digest, c.proof.digest, c.proof.report, granted, c.expires))
  }

  function IntentDigest(H: Hash, g: Grant, executable: Digest, observed: Time, environment: int, prepared: Time): Digest
  {
    H(IntentText(g.digest, executable, observed, prepared, g.expires, environment))
  }

  function ReservationDigest(H: Hash, i: Intent, reserved: Time): Digest
  {
    H(ReservationText(
        i.digest, i.grant.digest, i.grant.candidate.digest, i.grant.candidate.proof.digest, i.executable, i.prepared,
        reserved, i.expires))
  }

  // ---------- Stages ----------

  function ValidateClaim(c: Claim, now: Time): (r: Option<Refusal>)
    ensures r.None? <==> c.responded <= now < c.expires
  {
    if c.responded >= c.expires then Some(InvalidResponseClaim)
    else if now < c.responded || now >= c.expires then Some(ResponseExpired)
    else None
  }

  function Consume(H: Hash, c: Claim, now: Time): Consumption { Consumption(c, now, H(ConsumptionText(c, now))) }

  // `preflight` is the outcome of checking the fresh plan and executable.
  function ReverifyAt(H: Hash, c: Consumption, request: Digest, preflight: Option<Preflight>, observed: Time,
    verified: Time): Result<Proof, Refusal>
  {
    if c.claim.responded > c.consumed || c.consumed >= c.claim.expires then Err(InvalidConsumptionRecord)
    else if c.claim.request != request then Err(RequestMismatch)
    else if observed < c.consumed || verified < observed then Err(ObservationOrderingInvalid)
    else if verified >= c.claim.expires then Err(VerificationTimeInvalid)
    else if preflight.None? then Err(FreshPreflightRejected)
    else
      var f := preflight.value;
      var p := Proof(
        c.claim.challenge, c.claim.request, c.record, c.claim.preflight, f.digest, c.claim.response, f.report,
        f.inventory, f.executable,
        c.claim.responded, c.consumed, observed, verified, 0);
      Ok(p.(digest := ProofDigest(H, p)))
  }

  function SealCandidate(
    H: Hash, c: Consumption, request: Digest, plan: Plan, preflight: Option<Preflight>, observed: Time,
    verified: Time): Result<Candidate, Refusal>
  {
    match ReverifyAt(H, c, request, preflight, observed, verified)
    case Err(e) => Err(e)
    case Ok(p) => Ok(Candidate(plan, p, c.claim.expires, CandidateDigest(H, p, c.claim.expires)))
  }

  function GrantAt(H: Hash, c: Candidate, now: Time): Result<Grant, Refusal>
  {
    if c.proof.report != c.plan.report || c.proof.inventory != c.plan.inventory
      || c.proof.executable != c.plan.executable
       || c.digest != CandidateDigest(H, c.proof, c.expires) || c.expires <= c.proof.verified
    then Err(CandidateInvalid)
    else if now < c.proof.verified then Err(ClockInvalid)
    else if now >= c.expires then Err(CandidateExpired)
    else Ok(Grant(c, now, c.expires, GrantDigest(H, c, now)))
  }

  predicate GrantIntact(H: Hash, g: Grant)
  {
    g.expires == g.candidate.expires && g.digest == GrantDigest(H, g.candidate, g.granted)
  }

  // `executable` is the second observation, with its time; `environment` the assembled
  // launch environment.
  function PrepareIntent(H: Hash, g: Grant, executable: Option<(Digest, Time)>, environment: Option<int>,
    now: Time): Result<Intent, Refusal>
  {
    if !GrantIntact(H, g) then Err(GrantInvalid)
    else if executable.None? then Err(ExecutableInvalid)
    else if environment.None? then Err(EnvironmentInvalid)
    else
      var (file, observed) := executable.value;
      if observed < g.granted || now < observed then Err(ClockInvalid)
      else if now >= g.expires then Err(GrantExpired)
      else Ok(Intent(g, file, observed, environment.value, now, g.expires,
        IntentDigest(H, g, file, observed, environment.value, now)))
  }

  function ValidateIntent(H: Hash, i: Intent, now: Time): Option<Refusal>
  {
    if i.digest != IntentDigest(H, i.grant, i.executable, i.observed, i.environment, i.prepared)
      then Some(InvalidLaunchIntent)
    else if now < i.prepared then Some(ClockInvalid)
    else if now >= i.expires then Some(LaunchIntentExpired)
    else None
  }

  // The last check, once the slot is durable.
  function FinishReservation(H: Hash, i: Intent, reserved: Time, durable: Time): Result<Reservation, Refusal>
  {
    if durable < reserved then Err(ClockInvalid)
    else if durable >= i.expires then Err(LaunchIntentExpired)
    else Ok(Reservation(i, reserved, durable, ReservationDigest(H, i, reserved)))
  }
}
