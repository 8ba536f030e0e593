// A run of the approval pipeline that ends in a reservation, so its safety is not for
// want of runs.
module ApprovalRun {
  import opened Wrappers
  import opened Approval
  import opened ApprovalRuns

  ghost predicate CanReach(H: Hash, t: State)
  {
    exists actions: seq<Action> :: Reaches(H, actions, t)
  }

  lemma Take(H: Hash, s: State, a: Action) returns (t: State)
    requires CanReach(H, s) && Enabled(H, s, a)
    ensures CanReach(H, t) && t == Apply(H, s, a)
  {
    t := Apply(H, s, a);
    hide Enabled, Apply;
    var actions: seq<Action> :| Reaches(H, actions, s);
    var all := actions + [a];
    assert all[..|all| - 1] == actions && all[|all| - 1] == a;
    assert Reaches(H, all, t);
  }

  // What a caller sees whose claim is consumed at once and whose plan is confirmed.
  function ConfirmedPlan(plan: Plan): Option<Preflight>
  {
    Some(Preflight(0, plan.report, plan.inventory, plan.executable))
  }

  // The state with one value and one consumed challenge.
  function Holding(c: Consumption, k: Token): State
  {
    State(map[c.claim.challenge := true], map[], map[0 := k], map[c.claim.challenge := c], [c], [])
  }

  lemma ConsumesAlone(H: Hash, claim: Claim)
    requires claim.responded < claim.expires
    ensures var c := Consume(H, claim, claim.responded); CanReach(H, Holding(c, Consumed(c)))
  {
    assert Reaches(H, [], INITIAL);
    var now := claim.responded;
    var c := Consume(H, claim, now);
    var t := Take(H, INITIAL, Respond(0, claim));
    hide CanReach;
    assert t.tokens == map[0 := Claimed(claim)] && t == INITIAL.(tokens := t.tokens);
    t := Take(H, t, OpenConsumption(0, now));
    assert t == INITIAL.(tokens := map[0 := Consuming(claim, now)], consumptionSlots := map[claim.challenge := false]);
    t := Take(H, t, FinishConsumption(0));
    assert t == Holding(c, Consumed(c));
  }

  // The stages between consumption and reservation touch no slot and no history.
  lemma Stage(H: Hash, c: Consumption, k: Token, a: Action, l: Token)
    requires CanReach(H, Holding(c, k)) && (a.Seal? || a.GrantOnce? || a.Prepare?) && a.t == 0
    requires Challenge(k) == c.claim.challenge == Challenge(l)
    requires var v := View(Some(k), Some(true), Some(c), None);
      CanStep(H, v, a) && Next(H, v, a) == Outcome(v.(token := Some(l)), None, None)
    ensures CanReach(H, Holding(c, l))
  {
    var s := Holding(c, k);
    hide CanStep, Next, CanReach;
    assert Here(s, a) == View(Some(k), Some(true), Some(c), None);
    var t := Take(H, s, a);
    assert Put(s.tokens, 0, Some(l)) == map[0 := l];
    assert Put(s.reservationSlots, IntentKey(s, a), None) == map[];
    assert Put(s.consumptionSlots, c.claim.challenge, Some(true)) == s.consumptionSlots;
    assert t == Holding(c, l);
  }

  // Every claim answered in time, with a plan its fresh preflight confirms, can be carried
  // through to one reservation for its challenge.
  lemma TimelyClaimReserves(H: Hash, claim: Claim, plan: Plan) returns (t: State)
    requires claim.responded < claim.expires
    ensures CanReach(H, t)
    ensures |t.reservations| == 1 && t.reservations[0].intent.grant.candidate.proof.challenge == claim.challenge
    ensures t.reservations[0].intent.grant.candidate.plan == plan
  {
    var now := claim.responded;
    var c := Consume(H, claim, now);
    var candidate := SealCandidate(H, c, claim.request, plan, ConfirmedPlan(plan), now, now).value;
    var grant := GrantAt(H, candidate, now).value;
    var intent := PrepareIntent(H, grant, Some((plan.executable, now)), Some(0), now).value;
    ConsumesAlone(H, claim);
    Stage(H, c, Consumed(c), Seal(0, claim.request, plan, ConfirmedPlan(plan), now, now), Sealed(candidate));
    Stage(H, c, Sealed(candidate), GrantOnce(0, now), Granted(grant));
    Stage(H, c, Granted(grant), Prepare(0, Some((plan.executable, now)), Some(0), now), Prepared(intent));
    t := Reserves(H, c, intent, now);
  }

  lemma Reserves(H: Hash, c: Consumption, i: Intent, now: Time) returns (t: State)
    requires CanReach(H, Holding(c, Prepared(i))) && ValidateIntent(H, i, now).None?
    requires i.grant.candidate.proof.challenge == c.claim.challenge
    ensures CanReach(H, t) && |t.reservations| == 1 && t.reservations[0].intent == i
  {
    var s := Holding(c, Prepared(i));
    hide CanReach;
    t := Take(H, s, OpenReservation(0, now));
    assert t.tokens == map[0 := Reserving(i, now)];
    t := Take(H, t, FinishReserving(0, now));
  }
}
