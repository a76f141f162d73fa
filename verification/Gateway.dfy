/** The mutating half of the tool gateway (internal/tools/gateway.go) over an
    ideal token signature: a token verifies only if this server minted it. */
module Gateway {
  import opened Domain
  import opened Confirmations
  import opened Decimals

  datatype Config = Config(tokenTtl: int, confirmationTtl: int, lead: int, horizon: int) {
    predicate Valid() {
      0 < tokenTtl && 0 < confirmationTtl && 0 < lead < horizon
    }
  }

  datatype Claims = Claims(
    tenant: string, conversation: string, service: string, staff: string,
    start: int, end: int, timezone: string, expires: int)

  type Minted = map<string, Claims>

  datatype Command =
    | CreateCommand(scope: Scope, service: string, staff: string, start: int, end: int, timezone: string,
                    profile: Profile, notes: string, key: string)
    | RescheduleCommand(scope: Scope, booking: string, start: int, end: int, timezone: string, key: string)
    | CancelCommand(scope: Scope, booking: string, reason: string, key: string)

  datatype Code =
    InvalidArgument | PolicyDenied | ContactRequired | SlotUnavailable
    | ConfirmationExpired | ConfirmationStale | ConfirmationInvalid

  datatype Decision =
    | Refuse(code: Code)
    | Offer(binding: Binding, expiresAt: int)
    | Dispatch(confirmation: string, binding: Binding, command: Command)

  const CONFIRMATION_ID := "confirmation_id"
  const IDEMPOTENCY_KEY := "idempotency_key"
  const MAX_TOKEN_BYTES := 1024

  // ---- schemas and small helpers ----

  predicate Blank(s: string) {
    forall c :: c in s ==> c == ' ' || c == '\t' || c == '\n' || c == '\r'
  }

  predicate OptionalText(args: Arguments, key: string) {
    key in args ==> args[key].Str?
  }

  /** The constraints of the version 1 schemas that later decoding relies on. */
  predicate SchemaValid(tool: Tool, args: Arguments) {
    && OptionalText(args, CONFIRMATION_ID) && OptionalText(args, IDEMPOTENCY_KEY)
    && (IDEMPOTENCY_KEY in args ==> 16 <= |args[IDEMPOTENCY_KEY].text| <= 128 && !Blank(args[IDEMPOTENCY_KEY].text))
    && match tool
       case CreateBooking => "slot_token" in args && args["slot_token"].Str? && OptionalText(args, "notes")
       case Reschedule =>
         && "booking_id" in args && args["booking_id"].Str?
         && "new_slot" in args && args["new_slot"].Obj?
       case Cancel =>
         && "booking_id" in args && args["booking_id"].Str?
         && "reason" in args && args["reason"].Str? && args["reason"].text != ""
  }

  function EncodeProfile(p: Profile): Json {
    Obj(map["display_name" := Str(p.name), "contact" := Obj(map["email" := Str(p.email), "phone" := Str(p.phone)])])
  }

  function DecodeProfile(j: Json): Profile {
    if j.Obj? && "contact" in j.fields && j.fields["contact"].Obj? then
      var contact := j.fields["contact"].fields;
      Profile(Text(j.fields, "display_name"), Text(contact, "email"), Text(contact, "phone"))
    else Profile("", "", "")
  }

  lemma ProfileRoundTrip(p: Profile)
    ensures DecodeProfile(EncodeProfile(p)) == p
  {
    var outer := EncodeProfile(p).fields;
    assert outer["display_name"] == Str(p.name) && outer["contact"].Obj?;
    var contact := outer["contact"].fields;
    assert contact["email"] == Str(p.email) && contact["phone"] == Str(p.phone);
  }

  predicate Reachable(p: Profile) {
    p.name != "" && (p.email != "" || p.phone != "")
  }

  function SlotToken(tool: Tool, args: Arguments): string {
    match tool
    case CreateBooking => Text(args, "slot_token")
    case Reschedule => if "new_slot" in args && args["new_slot"].Obj? then Text(args["new_slot"].fields, "slot_token") else ""
    case Cancel => ""
  }

  // ---- idempotency keys ----

  const NUL := '\0'

  function Join(parts: seq<string>): string {
    if parts == [] then "" else parts[0] + [NUL] + Join(parts[1..])
  }

  /** Stand-in for the hex digest of the joined parts: an ideal digest is injective. */
  function DerivedKey(parts: seq<string>): string {
    "srv-" + Join(parts)
  }

  function KeyParts(scope: Scope, tool: Tool, facts: seq<string>): seq<string> {
    [scope.tenant, scope.conversation, scope.customer,
     match tool case CreateBooking => "create_booking" case Reschedule => "reschedule_booking" case Cancel => "cancel_booking"]
    + facts
  }

  function AdoptKey(args: Arguments, parts: seq<string>): Arguments {
    if Blank(Text(args, IDEMPOTENCY_KEY)) then args[IDEMPOTENCY_KEY := Str(DerivedKey(parts))] else args
  }

  ghost predicate NulFree(parts: seq<string>) {
    forall i :: 0 <= i < |parts| ==> NUL !in parts[i]
  }

  lemma SplitAtNul(a: string, b: string, x: string, y: string)
    requires NUL !in a && NUL !in b
    requires a + [NUL] + x == b + [NUL] + y
    ensures a == b && x == y
  {
    var u, v := a + [NUL] + x, b + [NUL] + y;
    assert forall i | 0 <= i < |a| :: u[i] == a[i] && a[i] in a;
    assert forall i | 0 <= i < |b| :: v[i] == b[i] && b[i] in b;
    assert u[|a|] == NUL && v[|b|] == NUL;
    assert a == u[..|a|] && b == v[..|b|];
    assert x == u[|a| + 1..] && y == v[|b| + 1..];
  }

  /** A derived key is the same for the same facts and different for any others. */
  lemma {:induction false} DerivedKeyInjective(p: seq<string>, q: seq<string>)
    requires NulFree(p) && NulFree(q)
    ensures DerivedKey(p) == DerivedKey(q) <==> p == q
    decreases |p|
  {
    if DerivedKey(p) == DerivedKey(q) {
      assert Join(p) == DerivedKey(p)[4..] && Join(q) == DerivedKey(q)[4..];
      if p != [] && q != [] {
        SplitAtNul(p[0], q[0], Join(p[1..]), Join(q[1..]));
        DerivedKeyInjective(p[1..], q[1..]);
        assert p == [p[0]] + p[1..] && q == [q[0]] + q[1..];
      }
    }
  }

  lemma DerivedKeyNotBlank(parts: seq<string>)
    ensures !Blank(DerivedKey(parts))
  {
    assert DerivedKey(parts)[0] == 's' && 's' in DerivedKey(parts);
  }

  // ---- slot tokens ----

  datatype TokenCheck = Accepted(claims: Claims) | Refused(code: Code)

  function VerifyToken(minted: Minted, token: string, scope: Scope, now: int): TokenCheck {
    if MAX_TOKEN_BYTES < |token| || token !in minted then Refused(InvalidArgument)
    else
      var c := minted[token];
      if c.tenant != scope.tenant || c.conversation != scope.conversation then Refused(PolicyDenied)
      else if c.expires <= now then Refused(SlotUnavailable)
      else Accepted(c)
  }

  predicate WithinWindow(cfg: Config, start: int, end: int, now: int) {
    now + cfg.lead <= start < end <= now + cfg.horizon
  }

  /** The claims find_slots signs for a slot at an instant: never beyond the last
      moment at which the slot still meets the lead time. */
  predicate Mintable(cfg: Config, c: Claims, now: int) {
    && WithinWindow(cfg, c.start, c.end, now)
    && c.expires == Min(now + cfg.tokenTtl, c.start - cfg.lead)
    && now < c.expires
  }

  ghost predicate MintedOk(cfg: Config, minted: Minted) {
    forall k :: k in minted ==> minted[k].expires <= minted[k].start - cfg.lead
  }

  // ---- the decision of one call ----

  datatype Prepared = Unfit(code: Code) | Fit(bundle: Arguments, command: Command, limit: Option<int>)

  /** The command a frozen argument object stands for. */
  function CommandOf(minted: Minted, scope: Scope, tool: Tool, args: Arguments): Command
    requires tool != Cancel ==> SlotToken(tool, args) in minted
  {
    var key := Text(args, IDEMPOTENCY_KEY);
    match tool
    case CreateBooking =>
      var c := minted[SlotToken(tool, args)];
      var profile := if "customer" in args then DecodeProfile(args["customer"]) else Profile("", "", "");
      CreateCommand(scope, c.service, c.staff, c.start, c.end, c.timezone, profile, Text(args, "notes"), key)
    case Reschedule =>
      var c := minted[SlotToken(tool, args)];
      RescheduleCommand(scope, Text(args, "booking_id"), c.start, c.end, c.timezone, key)
    case Cancel =>
      CancelCommand(scope, Text(args, "booking_id"), Text(args, "reason"), key)
  }

  function SlotFacts(tool: Tool, args: Arguments, c: Claims): seq<string> {
    match tool
    case CreateBooking => [c.service, c.staff, Stamp(c.start), Stamp(c.end)]
    case Reschedule => [Text(args, "booking_id"), c.staff, Stamp(c.start), Stamp(c.end)]
    case Cancel => [Text(args, "booking_id")]
  }

  const SECOND := 1_000_000_000

  /** An instant as text with the precision of the derived keys, whole seconds. */
  function Stamp(t: int): string {
    Signed(t / SECOND)
  }

  function Signed(s: int): string {
    if s < 0 then "-" + Print(-s) else Print(s)
  }

  /** createBooking, rescheduleBooking and cancelBooking up to the confirmation check. */
  function Prepare(cfg: Config, minted: Minted, t: Trusted, tool: Tool, args: Arguments, now: int): Prepared {
    match tool
    case Cancel =>
      var bundle := AdoptKey(args, KeyParts(t.scope, tool, [Text(args, "booking_id")]));
      Fit(bundle, CancelCommand(t.scope, Text(args, "booking_id"), Text(args, "reason"), Text(bundle, IDEMPOTENCY_KEY)), None)
    case _ =>
      if tool == CreateBooking && !Reachable(t.profile) then Unfit(ContactRequired)
      else
        match VerifyToken(minted, SlotToken(tool, args), t.scope, now)
        case Refused(code) => Unfit(code)
        case Accepted(c) =>
          if !WithinWindow(cfg, c.start, c.end, now) then Unfit(SlotUnavailable)
          else
            var owned := if tool == CreateBooking then args["customer" := EncodeProfile(t.profile)] else args;
            var bundle := AdoptKey(owned, KeyParts(t.scope, tool, SlotFacts(tool, args, c)));
            var key := Text(bundle, IDEMPOTENCY_KEY);
            var command :=
              if tool == CreateBooking then
                CreateCommand(t.scope, c.service, c.staff, c.start, c.end, c.timezone, t.profile, Text(args, "notes"), key)
              else RescheduleCommand(t.scope, Text(args, "booking_id"), c.start, c.end, c.timezone, key);
            Fit(bundle, command, Some(c.expires))
  }

  // ---- derived keys name appointments ----

  lemma SignedIsText(s: int)
    ensures Signed(s) != "" && NUL !in Signed(s)
    ensures Signed(s)[0] == '-' <==> s < 0
  {
    var digits := Print(if s < 0 then -s else s);
    PrintIsDigits(if s < 0 then -s else s);
    assert IsDigit(digits[0]);
    assert NUL !in digits;
  }

  lemma SignedInjective(a: int, b: int)
    ensures Signed(a) == Signed(b) <==> a == b
  {
    SignedIsText(a);
    SignedIsText(b);
    hide Print;
    if Signed(a) == Signed(b) {
      if a < 0 {
        assert Signed(a)[1..] == Print(-a) && Signed(b)[1..] == Print(-b);
        PrintInjective(-a, -b);
      } else {
        PrintInjective(a, b);
      }
    }
  }

  lemma StampInjective(a: int, b: int)
    ensures Stamp(a) == Stamp(b) <==> a / SECOND == b / SECOND
  {
    hide Signed;
    SignedInjective(a / SECOND, b / SECOND);
  }

  ghost predicate PlainText(scope: Scope, c: Claims) {
    NUL !in scope.tenant && NUL !in scope.conversation && NUL !in scope.customer && NUL !in c.service && NUL !in c.staff
  }

  /** Two creates without a key of their own get the same key exactly for the same appointment:
      one customer and conversation, one service and staff member, the same seconds. */
  lemma {:induction false} DerivedKeyNamesTheAppointment(cfg: Config, minted: Minted, t: Trusted, args: Arguments, now: int,
                                                         t': Trusted, args': Arguments, now': int)
    requires Prepare(cfg, minted, t, CreateBooking, args, now).Fit? && Prepare(cfg, minted, t', CreateBooking, args', now').Fit?
    requires Blank(Text(args, IDEMPOTENCY_KEY)) && Blank(Text(args', IDEMPOTENCY_KEY))
    requires PlainText(t.scope, minted[SlotToken(CreateBooking, args)]) && PlainText(t'.scope, minted[SlotToken(CreateBooking, args')])
    ensures var c, c' := minted[SlotToken(CreateBooking, args)], minted[SlotToken(CreateBooking, args')];
            Prepare(cfg, minted, t, CreateBooking, args, now).command.key == Prepare(cfg, minted, t', CreateBooking, args', now').command.key <==>
            && t.scope == t'.scope && c.service == c'.service && c.staff == c'.staff
            && c.start / SECOND == c'.start / SECOND && c.end / SECOND == c'.end / SECOND
  {
    var c, c' := minted[SlotToken(CreateBooking, args)], minted[SlotToken(CreateBooking, args')];
    DerivedKeyOf(cfg, minted, t, args, now);
    DerivedKeyOf(cfg, minted, t', args', now');
    StampsArePlain(t.scope, c);
    StampsArePlain(t'.scope, c');
    hide Prepare, DerivedKey, Stamp, SlotFacts, KeyParts;
    DerivedKeyInjective(CreateParts(t.scope, c), CreateParts(t'.scope, c'));
    StampInjective(c.start, c'.start);
    StampInjective(c.end, c'.end);
    PartsEqual(t.scope, c, t'.scope, c');
  }

  function CreateParts(scope: Scope, c: Claims): seq<string> {
    [scope.tenant, scope.conversation, scope.customer, "create_booking", c.service, c.staff, Stamp(c.start), Stamp(c.end)]
  }

  lemma PartsEqual(s: Scope, c: Claims, s': Scope, c': Claims)
    ensures CreateParts(s, c) == CreateParts(s', c') <==>
            s == s' && c.service == c'.service && c.staff == c'.staff && Stamp(c.start) == Stamp(c'.start) && Stamp(c.end) == Stamp(c'.end)
  {
    hide Stamp;
    var p, p' := CreateParts(s, c), CreateParts(s', c');
    if p == p' {
      assert p[0] == p'[0] && p[1] == p'[1] && p[2] == p'[2] && p[4] == p'[4] && p[5] == p'[5] && p[6] == p'[6] && p[7] == p'[7];
    }
  }

  lemma DerivedKeyOf(cfg: Config, minted: Minted, t: Trusted, args: Arguments, now: int)
    requires Prepare(cfg, minted, t, CreateBooking, args, now).Fit? && Blank(Text(args, IDEMPOTENCY_KEY))
    ensures SlotToken(CreateBooking, args) in minted
    ensures Prepare(cfg, minted, t, CreateBooking, args, now).command.key ==
            DerivedKey(CreateParts(t.scope, minted[SlotToken(CreateBooking, args)]))
  {
    hide DerivedKey, Stamp;
    var c := minted[SlotToken(CreateBooking, args)];
    assert KeyParts(t.scope, CreateBooking, SlotFacts(CreateBooking, args, c)) == CreateParts(t.scope, c);
  }

  lemma StampsArePlain(scope: Scope, c: Claims)
    requires PlainText(scope, c)
    ensures NulFree(CreateParts(scope, c))
  {
    hide Signed;
    SignedIsText(c.start / SECOND);
    SignedIsText(c.end / SECOND);
  }

  /** What a derived key of a change to a booking is made of. */
  function ChangeParts(scope: Scope, tool: Tool, booking: string, c: Claims): seq<string> {
    if tool == Cancel then [scope.tenant, scope.conversation, scope.customer, "cancel_booking", booking]
    else [scope.tenant, scope.conversation, scope.customer, "reschedule_booking", booking, c.staff, Stamp(c.start), Stamp(c.end)]
  }

  function ClaimsNamed(minted: Minted, tool: Tool, args: Arguments): Claims {
    if SlotToken(tool, args) in minted then minted[SlotToken(tool, args)] else Claims("", "", "", "", 0, 0, "", 0)
  }

  ghost predicate PlainChange(scope: Scope, booking: string, c: Claims) {
    NUL !in scope.tenant && NUL !in scope.conversation && NUL !in scope.customer && NUL !in booking && NUL !in c.staff
  }

  /** Changes without a key of their own get the same key exactly for the same tool, customer,
      conversation and booking, and for a move the same staff member and seconds. */
  lemma {:induction false} DerivedKeyNamesTheChange(cfg: Config, minted: Minted, t: Trusted, tool: Tool, args: Arguments, now: int,
                                                    t': Trusted, tool': Tool, args': Arguments, now': int)
    requires tool != CreateBooking && tool' != CreateBooking
    requires Prepare(cfg, minted, t, tool, args, now).Fit? && Prepare(cfg, minted, t', tool', args', now').Fit?
    requires Blank(Text(args, IDEMPOTENCY_KEY)) && Blank(Text(args', IDEMPOTENCY_KEY))
    requires PlainChange(t.scope, Text(args, "booking_id"), ClaimsNamed(minted, tool, args))
    requires PlainChange(t'.scope, Text(args', "booking_id"), ClaimsNamed(minted, tool', args'))
    ensures var c, c' := ClaimsNamed(minted, tool, args), ClaimsNamed(minted, tool', args');
            Prepare(cfg, minted, t, tool, args, now).command.key == Prepare(cfg, minted, t', tool', args', now').command.key <==>
            && tool == tool' && t.scope == t'.scope && Text(args, "booking_id") == Text(args', "booking_id")
            && (tool == Reschedule ==> c.staff == c'.staff && c.start / SECOND == c'.start / SECOND && c.end / SECOND == c'.end / SECOND)
  {
    var c, c' := ClaimsNamed(minted, tool, args), ClaimsNamed(minted, tool', args');
    ChangeKeyOf(cfg, minted, t, tool, args, now);
    ChangeKeyOf(cfg, minted, t', tool', args', now');
    ChangePartsArePlain(t.scope, tool, Text(args, "booking_id"), c);
    ChangePartsArePlain(t'.scope, tool', Text(args', "booking_id"), c');
    hide Prepare, DerivedKey, Stamp, SlotFacts, KeyParts, ClaimsNamed;
    DerivedKeyInjective(ChangeParts(t.scope, tool, Text(args, "booking_id"), c), ChangeParts(t'.scope, tool', Text(args', "booking_id"), c'));
    StampInjective(c.start, c'.start);
    StampInjective(c.end, c'.end);
    ChangePartsEqual(t.scope, tool, Text(args, "booking_id"), c, t'.scope, tool', Text(args', "booking_id"), c');
  }

  lemma ChangePartsEqual(s: Scope, tool: Tool, b: string, c: Claims, s': Scope, tool': Tool, b': string, c': Claims)
    requires tool != CreateBooking && tool' != CreateBooking
    ensures ChangeParts(s, tool, b, c) == ChangeParts(s', tool', b', c') <==>
            && tool == tool' && s == s' && b == b'
            && (tool == Reschedule ==> c.staff == c'.staff && Stamp(c.start) == Stamp(c'.start) && Stamp(c.end) == Stamp(c'.end))
  {
    hide Stamp;
    var p, p' := ChangeParts(s, tool, b, c), ChangeParts(s', tool', b', c');
    if p == p' {
      assert |p| == |p'|;
      assert p[0] == p'[0] && p[1] == p'[1] && p[2] == p'[2] && p[4] == p'[4];
      assert tool == Reschedule ==> p[5] == p'[5] && p[6] == p'[6] && p[7] == p'[7];
    }
  }

  lemma ChangeKeyOf(cfg: Config, minted: Minted, t: Trusted, tool: Tool, args: Arguments, now: int)
    requires tool != CreateBooking && Prepare(cfg, minted, t, tool, args, now).Fit? && Blank(Text(args, IDEMPOTENCY_KEY))
    ensures Prepare(cfg, minted, t, tool, args, now).command.key ==
            DerivedKey(ChangeParts(t.scope, tool, Text(args, "booking_id"), ClaimsNamed(minted, tool, args)))
  {
    hide DerivedKey, Stamp;
    var c := ClaimsNamed(minted, tool, args);
    if tool == Cancel {
      assert KeyParts(t.scope, tool, [Text(args, "booking_id")]) == ChangeParts(t.scope, tool, Text(args, "booking_id"), c);
    } else {
      assert KeyParts(t.scope, tool, SlotFacts(tool, args, c)) == ChangeParts(t.scope, tool, Text(args, "booking_id"), c);
    }
  }

  lemma ChangePartsArePlain(scope: Scope, tool: Tool, booking: string, c: Claims)
    requires PlainChange(scope, booking, c)
    ensures NulFree(ChangeParts(scope, tool, booking, c))
  {
    hide Signed;
    SignedIsText(c.start / SECOND);
    SignedIsText(c.end / SECOND);
  }

  /** restoreFrozenAction: a call that names the conversation's live proposal for
      its tool is replaced by what that proposal froze. */
  ghost function Restore(rows: Rows, t: Trusted, tool: Tool, args: Arguments, now: int): Arguments {
    var id := Text(args, CONFIRMATION_ID);
    if id == "" || LatestRow(rows, t.scope, now) != Some(id) || id !in rows || rows[id].tool != tool then args
    else rows[id].args[CONFIRMATION_ID := Str(id)]
  }

  function Refusal(v: Verdict): Code
    requires v != Granted
  {
    match v
    case TooLate => ConfirmationExpired
    case Stale => ConfirmationStale
    case Invalid => ConfirmationInvalid
  }

  ghost function Execute(cfg: Config, rows: Rows, minted: Minted, t: Trusted, tool: Tool, args: Arguments, now: int): Decision {
    if !SchemaValid(tool, args) then Refuse(InvalidArgument)
    else if !t.Valid() then Refuse(PolicyDenied)
    else
      match Prepare(cfg, minted, t, tool, Restore(rows, t, tool, args, now), now)
      case Unfit(code) => Refuse(code)
      case Fit(bundle, command, limit) =>
        var binding := Binding(t.scope, t.message, tool, bundle - {CONFIRMATION_ID});
        var id := Text(bundle, CONFIRMATION_ID);
        if id == "" then
          var natural := now + cfg.confirmationTtl;
          Offer(binding, if limit.Some? then Min(natural, limit.value) else natural)
        else
          var verdict := VerifyRow(rows, id, binding, now);
          if verdict == Granted then Dispatch(id, binding, command) else Refuse(Refusal(verdict))
  }

  // ---- what a frozen row guarantees ----

  /** What every row created from an Offer keeps for the rest of its life. */
  ghost predicate Frozen(cfg: Config, minted: Minted, p: Proposal) {
    && CONFIRMATION_ID !in p.args && !Blank(Text(p.args, IDEMPOTENCY_KEY))
    && p.expiresAt <= p.createdAt + cfg.confirmationTtl
    && (p.tool == CreateBooking ==> "customer" in p.args)
    && (p.tool != Cancel ==>
          var token := SlotToken(p.tool, p.args);
          && |token| <= MAX_TOKEN_BYTES && token in minted
          && var c := minted[token];
             && c.tenant == p.scope.tenant && c.conversation == p.scope.conversation
             && p.expiresAt <= c.expires && c.start < c.end <= p.createdAt + cfg.horizon)
  }

  lemma AdoptedKeyNotBlank(args: Arguments, parts: seq<string>)
    ensures !Blank(Text(AdoptKey(args, parts), IDEMPOTENCY_KEY))
  {
    DerivedKeyNotBlank(parts);
  }

  /** Removing confirmation_id leaves every other field readable. */
  lemma TextWithoutId(args: Arguments, key: string)
    requires key != CONFIRMATION_ID
    ensures Text(args - {CONFIRMATION_ID}, key) == Text(args, key)
  {
  }

  lemma TokenUnchanged(tool: Tool, args: Arguments, bundle: Arguments)
    requires forall k :: k != "customer" && k != IDEMPOTENCY_KEY && k != CONFIRMATION_ID ==>
               (k in args <==> k in bundle) && (k in args ==> args[k] == bundle[k])
    ensures SlotToken(tool, args) == SlotToken(tool, bundle)
    ensures Text(args, "booking_id") == Text(bundle, "booking_id")
    ensures Text(args, "notes") == Text(bundle, "notes") && Text(args, "reason") == Text(bundle, "reason")
  {
    assert "slot_token" in args <==> "slot_token" in bundle;
    assert "new_slot" in args <==> "new_slot" in bundle;
    assert "booking_id" in args <==> "booking_id" in bundle;
    assert "notes" in args <==> "notes" in bundle;
    assert "reason" in args <==> "reason" in bundle;
  }

  /** Whatever reaches the backend is the command the bound arguments stand for. */
  lemma PreparedCommand(cfg: Config, minted: Minted, t: Trusted, tool: Tool, args: Arguments, now: int)
    ensures match Prepare(cfg, minted, t, tool, args, now)
            case Unfit(_) => true
            case Fit(bundle, command, limit) =>
              var bound := bundle - {CONFIRMATION_ID};
              && (tool != Cancel ==> SlotToken(tool, bound) in minted)
              && command == CommandOf(minted, t.scope, tool, bound)
              && !Blank(Text(bound, IDEMPOTENCY_KEY))
              && SlotToken(tool, bound) == SlotToken(tool, args)
              && (tool == CreateBooking ==> "customer" in bound && bound["customer"] == EncodeProfile(t.profile))
  {
    match Prepare(cfg, minted, t, tool, args, now)
    case Unfit(_) =>
    case Fit(bundle, command, limit) =>
      var bound := bundle - {CONFIRMATION_ID};
      TokenUnchanged(tool, args, bound);
      TextWithoutId(bundle, IDEMPOTENCY_KEY);
      match tool {
        case Cancel => AdoptedKeyNotBlank(args, KeyParts(t.scope, tool, [Text(args, "booking_id")]));
        case Reschedule =>
          var c := minted[SlotToken(tool, args)];
          AdoptedKeyNotBlank(args, KeyParts(t.scope, tool, SlotFacts(tool, args, c)));
        case CreateBooking =>
          var c := minted[SlotToken(tool, args)];
          AdoptedKeyNotBlank(args["customer" := EncodeProfile(t.profile)], KeyParts(t.scope, tool, SlotFacts(tool, args, c)));
          assert bound["customer"] == EncodeProfile(t.profile);
          ProfileRoundTrip(t.profile);
      }
  }

  lemma OfferIsFrozen(cfg: Config, rows: Rows, minted: Minted, t: Trusted, tool: Tool, args: Arguments, now: int)
    requires cfg.Valid() && Execute(cfg, rows, minted, t, tool, args, now).Offer?
    ensures var d := Execute(cfg, rows, minted, t, tool, args, now);
            && d.binding.scope == t.scope && d.binding.message == t.message && d.binding.tool == tool
            && now < d.expiresAt
            && Frozen(cfg, minted, Proposal(t.scope, tool, d.binding.args, t.message, Pending, now, d.expiresAt, None))
  {
    PreparedCommand(cfg, minted, t, tool, Restore(rows, t, tool, args, now), now);
  }

  lemma DispatchIsBound(cfg: Config, rows: Rows, minted: Minted, t: Trusted, tool: Tool, args: Arguments, now: int)
    requires Execute(cfg, rows, minted, t, tool, args, now).Dispatch?
    ensures var d := Execute(cfg, rows, minted, t, tool, args, now);
            && d.confirmation in rows && SameAction(rows[d.confirmation], d.binding)
            && d.binding.scope == t.scope && d.binding.tool == tool
            && rows[d.confirmation].status in {Confirmed, Consumed}
            && (tool != Cancel ==> SlotToken(tool, d.binding.args) in minted)
            && d.command == CommandOf(minted, t.scope, tool, d.binding.args)
  {
    PreparedCommand(cfg, minted, t, tool, Restore(rows, t, tool, args, now), now);
  }

  /** Consent is neither stranded nor tampered with: whatever else a schema-valid
      call carrying the id of the live authorized proposal says, the backend gets
      the command that was frozen. Only a changed customer profile (or, for a new
      booking, one without contact) can stop it, and then it always does. */
  lemma ConsentReachesBackend(cfg: Config, rows: Rows, minted: Minted, t: Trusted, args: Arguments, id: string, now: int)
    requires cfg.Valid() && MintedOk(cfg, minted) && OneLive(rows) && t.Valid()
    requires id != "" && id in rows && Frozen(cfg, minted, rows[id])
    requires rows[id].scope == t.scope && rows[id].status == Confirmed
    requires rows[id].createdAt <= now < rows[id].expiresAt
    requires SchemaValid(rows[id].tool, args) && Text(args, CONFIRMATION_ID) == id
    ensures var d := Execute(cfg, rows, minted, t, rows[id].tool, args, now);
            var p := rows[id];
            var sameOwner := p.tool == CreateBooking ==> Reachable(t.profile) && p.args["customer"] == EncodeProfile(t.profile);
            && (d.Dispatch? <==> sameOwner)
            && (d.Dispatch? ==> d == Dispatch(id, Binding(t.scope, t.message, p.tool, p.args), CommandOf(minted, t.scope, p.tool, p.args)))
  {
    hide OneLive, MintedOk, Restore, Frozen, Prepare, CommandOf;
    var p := rows[id];
    var restored := p.args[CONFIRMATION_ID := Str(id)];
    RestoresFrozen(rows, t, args, id, now);
    FrozenPrepares(cfg, minted, t, p, id, now);
    PreparedCommand(cfg, minted, t, p.tool, restored, now);
    FrozenHasCustomer(cfg, minted, p);
    BoundAgain(p, id, EncodeProfile(t.profile));
  }

  lemma FrozenHasCustomer(cfg: Config, minted: Minted, p: Proposal)
    requires Frozen(cfg, minted, p)
    ensures CONFIRMATION_ID !in p.args && (p.tool == CreateBooking ==> "customer" in p.args)
  {
  }

  lemma RestoresFrozen(rows: Rows, t: Trusted, args: Arguments, id: string, now: int)
    requires OneLive(rows) && id != "" && id in rows && rows[id].scope == t.scope && rows[id].status == Confirmed
    requires now < rows[id].expiresAt && Text(args, CONFIRMATION_ID) == id
    ensures Restore(rows, t, rows[id].tool, args, now) == rows[id].args[CONFIRMATION_ID := Str(id)]
  {
    LatestFindsTheLiveRow(rows, t.scope, now, id);
  }

  /** A frozen action still prepares while its proposal lives, and adopts nothing new. */
  lemma FrozenPrepares(cfg: Config, minted: Minted, t: Trusted, p: Proposal, id: string, now: int)
    requires cfg.Valid() && MintedOk(cfg, minted) && Frozen(cfg, minted, p) && p.scope == t.scope
    requires p.createdAt <= now < p.expiresAt
    ensures var restored := p.args[CONFIRMATION_ID := Str(id)];
            var prepared := Prepare(cfg, minted, t, p.tool, restored, now);
            && (prepared.Fit? <==> (p.tool == CreateBooking ==> Reachable(t.profile)))
            && (prepared.Fit? ==>
                  prepared.bundle == if p.tool == CreateBooking then restored["customer" := EncodeProfile(t.profile)] else restored)
  {
    TokenUnchanged(p.tool, p.args, p.args[CONFIRMATION_ID := Str(id)]);
  }

  /** The binding of the restored arguments is the frozen one exactly for the same customer. */
  lemma BoundAgain(p: Proposal, id: string, customer: Json)
    requires CONFIRMATION_ID !in p.args
    ensures p.args[CONFIRMATION_ID := Str(id)] - {CONFIRMATION_ID} == p.args
    ensures p.args[CONFIRMATION_ID := Str(id)]["customer" := customer] - {CONFIRMATION_ID} == p.args["customer" := customer]
    ensures "customer" in p.args ==> (p.args["customer" := customer] == p.args <==> p.args["customer"] == customer)
  {
    var again := p.args["customer" := customer];
    assert again["customer"] == customer;
  }
}
