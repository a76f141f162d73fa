/** find_slots of internal/tools/gateway.go: which slots are shown to the model, and with
    what claims they are signed. */
module SlotOffers {
  import opened Domain
  import opened Confirmations
  import opened Gateway

  const MOST_SLOTS := 12
  const SEARCH_RANGE := 2_678_400_000_000_000

  /** A slot as the scheduling backend returns it; `zoneKnown` says the zone name loads. */
  datatype Candidate = Candidate(service: string, staff: string, start: int, end: int, timezone: string, zoneKnown: bool)

  datatype Query = Query(service: string, staff: string, from: int, to: int)

  datatype Reply = Slots(claims: seq<Claims>, truncated: bool) | InvalidRequest | BackendBroken

  function ServiceOf(q: Query, c: Candidate): string {
    if c.service == "" then q.service else c.service
  }

  predicate Sane(q: Query, c: Candidate) {
    && ServiceOf(q, c) == q.service && c.staff != "" && (q.staff != "" ==> c.staff == q.staff)
    && c.timezone != "" && c.zoneKnown && q.from <= c.start < c.end <= q.to
  }

  function ClaimsFor(cfg: Config, scope: Scope, q: Query, c: Candidate, now: int): Claims {
    Claims(scope.tenant, scope.conversation, ServiceOf(q, c), c.staff, c.start, c.end, c.timezone,
           Min(now + cfg.tokenTtl, c.start - cfg.lead))
  }

  /** The claims of the candidates that may still be booked when they are signed. */
  function Signed(cfg: Config, scope: Scope, q: Query, cs: seq<Candidate>, now: int): seq<Claims> {
    if cs == [] then []
    else
      var front := Signed(cfg, scope, q, cs[..|cs| - 1], now);
      var claims := ClaimsFor(cfg, scope, q, cs[|cs| - 1], now);
      if Mintable(cfg, claims, now) then front + [claims] else front
  }

  lemma NothingSigned(cfg: Config, scope: Scope, q: Query, now: int)
    ensures Signed(cfg, scope, q, [], now) == []
  {
  }

  lemma {:induction false} SignedNext(cfg: Config, scope: Scope, q: Query, cs: seq<Candidate>, k: nat, now: int)
    requires k < |cs|
    ensures var claims := ClaimsFor(cfg, scope, q, cs[k], now);
            Signed(cfg, scope, q, cs[..k + 1], now)
              == Signed(cfg, scope, q, cs[..k], now) + if Mintable(cfg, claims, now) then [claims] else []
  {
    assert cs[..k + 1][..k] == cs[..k];
  }

  predicate RequestFits(cfg: Config, q: Query, now: int) {
    q.from < q.to && q.to - q.from <= SEARCH_RANGE && now + cfg.lead <= q.from && q.to <= now + cfg.horizon
  }

  /** The claims signed for a candidate: the caller's own tenant and conversation, the service asked
      for, the candidate's staff member, times and zone, and an end that is neither later than the
      token's lifetime nor than the lead time before the start. */
  predicate SignedFor(cfg: Config, scope: Scope, q: Query, c: Candidate, now: int, s: Claims) {
    && s.tenant == scope.tenant && s.conversation == scope.conversation && s.service == q.service && s.staff == c.staff
    && s.start == c.start && s.end == c.end && s.timezone == c.timezone
    && s.expires == if now + cfg.tokenTtl < c.start - cfg.lead then now + cfg.tokenTtl else c.start - cfg.lead
  }

  /** The candidate can still be booked, with time to say so. */
  predicate StillBookable(cfg: Config, c: Candidate, now: int) {
    now + cfg.lead < c.start < c.end <= now + cfg.horizon
  }

  lemma SignedClaims(cfg: Config, scope: Scope, q: Query, c: Candidate, now: int)
    requires cfg.Valid() && Sane(q, c)
    ensures SignedFor(cfg, scope, q, c, now, ClaimsFor(cfg, scope, q, c, now))
    ensures Mintable(cfg, ClaimsFor(cfg, scope, q, c, now), now) <==> StillBookable(cfg, c, now)
    ensures AskedFor(q, ClaimsFor(cfg, scope, q, c, now))
  {
  }

  /** Within what the query asked for. */
  predicate AskedFor(q: Query, s: Claims) {
    q.from <= s.start < s.end <= q.to && (q.staff != "" ==> s.staff == q.staff) && s.staff != "" && s.timezone != ""
  }

  /** Positions in the backend's list, in order. */
  predicate InOrder(at: seq<nat>, seen: nat) {
    (forall j :: 0 <= j < |at| ==> at[j] < seen) && forall i, j :: 0 <= i < j < |at| ==> at[i] < at[j]
  }

  /** What the loop has signed after `k` candidates, and from which positions. */
  ghost predicate Gathered(cfg: Config, scope: Scope, q: Query, available: seq<Candidate>, k: nat, now: int,
                           claims: seq<Claims>, at: seq<nat>)
    requires k <= |available|
  {
    && claims == Signed(cfg, scope, q, available[..k], now)
    && (forall i :: 0 <= i < k ==> Sane(q, available[i]))
    && |at| == |claims| && InOrder(at, k)
    && (forall j :: 0 <= j < |at| ==> SignedFor(cfg, scope, q, available[at[j]], now, claims[j]))
    && (forall i :: 0 <= i < k ==> (i in at <==> StillBookable(cfg, available[i], now)))
    && (forall j :: 0 <= j < |claims| ==> Mintable(cfg, claims[j], now) && AskedFor(q, claims[j]))
  }

  lemma {:induction false} GatheredNext(cfg: Config, scope: Scope, q: Query, available: seq<Candidate>, k: nat, now: int,
                                        claims: seq<Claims>, at: seq<nat>)
    requires cfg.Valid() && k < |available| && Sane(q, available[k])
    requires Gathered(cfg, scope, q, available, k, now, claims, at)
    ensures var signed := ClaimsFor(cfg, scope, q, available[k], now);
            if Mintable(cfg, signed, now) then Gathered(cfg, scope, q, available, k + 1, now, claims + [signed], at + [k])
            else Gathered(cfg, scope, q, available, k + 1, now, claims, at)
  {
    hide Mintable, Sane, SignedFor, StillBookable, Signed, ClaimsFor, AskedFor;
    SignedNext(cfg, scope, q, available, k, now);
    SignedClaims(cfg, scope, q, available[k], now);
  }

  /** At most twelve slots in the backend's order, each signed only while it can still be
      booked; cut off exactly when the backend had more to look at. */
  method FindSlots(cfg: Config, scope: Scope, q: Query, available: seq<Candidate>, asked: int, answered: int)
    returns (r: Reply, ghost seen: nat, ghost at: seq<nat>)
    requires cfg.Valid() && asked <= answered
    ensures r.InvalidRequest? <==> !RequestFits(cfg, q, asked)
    ensures seen <= |available|
    ensures r.Slots? ==> r.claims == Signed(cfg, scope, q, available[..seen], answered) && |r.claims| <= MOST_SLOTS
    ensures r.Slots? ==> (r.truncated <==> seen < |available|) && (r.truncated ==> |r.claims| == 12)
    ensures r.Slots? ==> forall i :: 0 <= i < seen ==> Sane(q, available[i])
    ensures r.Slots? ==> forall i :: 0 <= i < |r.claims| ==> Mintable(cfg, r.claims[i], answered)
    ensures r.BackendBroken? ==> seen < |available| && !Sane(q, available[seen])
    ensures r.Slots? ==>
              && |at| == |r.claims| <= 12 && InOrder(at, seen)
              && (forall j :: 0 <= j < |at| ==> SignedFor(cfg, scope, q, available[at[j]], answered, r.claims[j]))
              && (forall i :: 0 <= i < seen ==> (i in at <==> StillBookable(cfg, available[i], answered)))
    ensures r.Slots? ==> forall j :: 0 <= j < |r.claims| ==>
              && q.from <= r.claims[j].start < r.claims[j].end <= q.to && (q.staff != "" ==> r.claims[j].staff == q.staff)
              && r.claims[j].staff != "" && r.claims[j].timezone != ""
    ensures !r.InvalidRequest? <==>
              q.from < q.to && q.to - q.from <= 31 * 86_400_000_000_000 && asked + cfg.lead <= q.from && q.to <= asked + cfg.horizon
  {
    hide Mintable, Sane, SignedFor, StillBookable, Signed, ClaimsFor;
    seen, at := 0, [];
    if !RequestFits(cfg, q, asked) {
      return InvalidRequest, seen, at;
    }
    var claims: seq<Claims> := [];
    NothingSigned(cfg, scope, q, answered);
    assert available[..0] == [];
    var truncated, k := false, 0;
    while k < |available|
      invariant seen == k <= |available| && |claims| <= MOST_SLOTS && !truncated
      invariant Gathered(cfg, scope, q, available, k, answered, claims, at)
    {
      hide Gathered;
      if |claims| == MOST_SLOTS {
        truncated := true;
        break;
      }
      var c := available[k];
      if !Sane(q, c) {
        return BackendBroken, seen, at;
      }
      GatheredNext(cfg, scope, q, available, k, answered, claims, at);
      var signed := ClaimsFor(cfg, scope, q, c, answered);
      if Mintable(cfg, signed, answered) {
        claims, at := claims + [signed], at + [k];
      }
      k, seen := k + 1, k + 1;
    }
    return Slots(claims, truncated), seen, at;
  }

  /** A slot signed for the caller can be proposed exactly until its token expires: the token
      check, the lead time and the horizon never cut it off earlier. */
  lemma {:induction false} SignedSlotCanBeProposedUntilItExpires(cfg: Config, rows: Rows, minted: Minted, t: Trusted, args: Arguments,
                                                                 token: string, signed: int, now: int)
    requires cfg.Valid() && t.Valid() && Reachable(t.profile) && signed <= now
    requires SchemaValid(CreateBooking, args) && Text(args, CONFIRMATION_ID) == "" && SlotToken(CreateBooking, args) == token
    requires token in minted && |token| <= MAX_TOKEN_BYTES && Mintable(cfg, minted[token], signed)
    requires minted[token].tenant == t.scope.tenant && minted[token].conversation == t.scope.conversation
    ensures Execute(cfg, rows, minted, t, CreateBooking, args, now).Offer? <==> now < minted[token].expires
    ensures Execute(cfg, rows, minted, t, CreateBooking, args, now).Offer? ==>
              Execute(cfg, rows, minted, t, CreateBooking, args, now).expiresAt <= minted[token].expires
  {
    var c := minted[token];
    assert Restore(rows, t, CreateBooking, args, now) == args;
    if now < c.expires {
      assert WithinWindow(cfg, c.start, c.end, now);
      NoConfirmation(cfg, minted, t, args, now);
    }
  }

  lemma NoConfirmation(cfg: Config, minted: Minted, t: Trusted, args: Arguments, now: int)
    requires Prepare(cfg, minted, t, CreateBooking, args, now).Fit? && Text(args, CONFIRMATION_ID) == ""
    ensures Text(Prepare(cfg, minted, t, CreateBooking, args, now).bundle, CONFIRMATION_ID) == ""
  {
  }
}
