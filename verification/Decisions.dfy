/** What a decision of the tool gateway says, field by field: who is refused, what is offered,
    and what reaches the backend (internal/tools/gateway.go). */
module Decisions {
  import opened Domain
  import opened Confirmations
  import opened Gateway

  /** The slot token a call names, as the source's argument structs spell it. */
  predicate NamesToken(tool: Tool, args: Arguments, token: string) {
    match tool
    case CreateBooking => "slot_token" in args && args["slot_token"] == Str(token)
    case Reschedule =>
      "new_slot" in args && args["new_slot"].Obj? && "slot_token" in args["new_slot"].fields
      && args["new_slot"].fields["slot_token"] == Str(token)
    case Cancel => false
  }

  /** The token is the caller's own, alive, and its slot lies within lead time and horizon. */
  predicate Usable(cfg: Config, minted: Minted, scope: Scope, token: string, now: int) {
    && |token| <= 1024 && token in minted
    && minted[token].tenant == scope.tenant && minted[token].conversation == scope.conversation
    && now < minted[token].expires
    && now + cfg.lead <= minted[token].start < minted[token].end <= now + cfg.horizon
  }

  /** Nothing but the confirmation is missing. */
  predicate Ready(cfg: Config, minted: Minted, t: Trusted, tool: Tool, args: Arguments, now: int) {
    && t.scope.tenant != "" && t.scope.customer != "" && t.scope.conversation != ""
    && (tool == CreateBooking ==> t.profile.name != "" && (t.profile.email != "" || t.profile.phone != ""))
    && (tool != Cancel ==> Usable(cfg, minted, t.scope, SlotToken(tool, args), now))
  }

  lemma NamedToken(tool: Tool, args: Arguments, token: string)
    requires NamesToken(tool, args, token)
    ensures SlotToken(tool, args) == token
  {
  }

  lemma ReadyIsFit(cfg: Config, minted: Minted, t: Trusted, tool: Tool, args: Arguments, now: int)
    ensures t.Valid() && Prepare(cfg, minted, t, tool, args, now).Fit? <==> Ready(cfg, minted, t, tool, args, now)
  {
    hide SlotToken, EncodeProfile, AdoptKey, KeyParts, SlotFacts;
  }

  /** A schema-valid call is offered exactly when it is ready and names no confirmation. */
  lemma OfferedIff(cfg: Config, rows: Rows, minted: Minted, t: Trusted, tool: Tool, args: Arguments, now: int)
    requires SchemaValid(tool, args) && Text(args, "confirmation_id") == ""
    ensures Execute(cfg, rows, minted, t, tool, args, now).Offer? <==> Ready(cfg, minted, t, tool, args, now)
    ensures !Execute(cfg, rows, minted, t, tool, args, now).Dispatch?
  {
    hide Ready, EncodeProfile, KeyParts, SlotFacts, VerifyRow, DerivedKey;
    assert Restore(rows, t, tool, args, now) == args;
    ReadyIsFit(cfg, minted, t, tool, args, now);
    KeepsOtherFields(cfg, minted, t, tool, args, now);
  }

  /** Preparation touches the customer and the key, and nothing else. */
  lemma KeepsOtherFields(cfg: Config, minted: Minted, t: Trusted, tool: Tool, args: Arguments, now: int)
    ensures Prepare(cfg, minted, t, tool, args, now).Fit? ==>
              var bundle := Prepare(cfg, minted, t, tool, args, now).bundle;
              && (forall k :: k !in {"customer", "idempotency_key"} ==> (k in bundle <==> k in args) && (k in args ==> bundle[k] == args[k]))
              && "idempotency_key" in bundle
              && (tool != CreateBooking ==> ("customer" in bundle <==> "customer" in args)
                                            && ("customer" in args ==> bundle["customer"] == args["customer"]))
              && (!Blank(Text(args, "idempotency_key")) ==> Text(bundle, "idempotency_key") == Text(args, "idempotency_key"))
              && Text(bundle, "confirmation_id") == Text(args, "confirmation_id")
  {
    hide EncodeProfile, KeyParts, SlotFacts, VerifyToken, WithinWindow, DerivedKey;
  }

  /** What is offered: the call's own arguments with the caller's profile and a key, for as long
      as confirmation and token allow. */
  lemma OfferSays(cfg: Config, rows: Rows, minted: Minted, t: Trusted, tool: Tool, args: Arguments, now: int)
    requires Execute(cfg, rows, minted, t, tool, args, now).Offer?
    ensures var d := Execute(cfg, rows, minted, t, tool, args, now);
            && Ready(cfg, minted, t, tool, args, now) && Text(args, "confirmation_id") == ""
            && d.binding.scope == t.scope && d.binding.message == t.message && d.binding.tool == tool
            && "confirmation_id" !in d.binding.args
            && (forall k :: k !in {"customer", "idempotency_key", "confirmation_id"} ==>
                  (k in d.binding.args <==> k in args) && (k in args ==> d.binding.args[k] == args[k]))
            && (tool == CreateBooking ==>
                  && "customer" in d.binding.args && d.binding.args["customer"].Obj?
                  && var customer := d.binding.args["customer"].fields;
                     && "display_name" in customer && customer["display_name"] == Str(t.profile.name)
                     && "contact" in customer && customer["contact"].Obj?
                     && "email" in customer["contact"].fields && customer["contact"].fields["email"] == Str(t.profile.email)
                     && "phone" in customer["contact"].fields && customer["contact"].fields["phone"] == Str(t.profile.phone))
            && (!Blank(Text(args, "idempotency_key")) ==> Text(d.binding.args, "idempotency_key") == Text(args, "idempotency_key"))
            && !Blank(Text(d.binding.args, "idempotency_key"))
            && d.expiresAt == (if tool == Cancel || now + cfg.confirmationTtl < minted[SlotToken(tool, args)].expires
                               then now + cfg.confirmationTtl else minted[SlotToken(tool, args)].expires)
  {
    hide Ready, KeyParts, SlotFacts, VerifyRow, DerivedKey, EncodeProfile, DecodeProfile;
    var restored := Restore(rows, t, tool, args, now);
    KeepsOtherFields(cfg, minted, t, tool, restored, now);
    RestoredNamesIt(rows, t, tool, args, now);
    ReadyIsFit(cfg, minted, t, tool, args, now);
    PreparedCommand(cfg, minted, t, tool, args, now);
    EncodedProfile(t.profile);
    LimitIs(cfg, minted, t, tool, args, now);
  }

  lemma EncodedProfile(p: Profile)
    ensures var j := EncodeProfile(p);
            && j.Obj? && "display_name" in j.fields && j.fields["display_name"] == Str(p.name)
            && "contact" in j.fields && j.fields["contact"].Obj?
            && "email" in j.fields["contact"].fields && j.fields["contact"].fields["email"] == Str(p.email)
            && "phone" in j.fields["contact"].fields && j.fields["contact"].fields["phone"] == Str(p.phone)
  {
    var outer := EncodeProfile(p).fields;
    assert outer["display_name"] == Str(p.name) && outer["contact"].Obj?;
    var contact := outer["contact"].fields;
    assert contact["email"] == Str(p.email) && contact["phone"] == Str(p.phone);
  }

  /** A call that names a confirmation still names it after its arguments are restored. */
  lemma RestoredNamesIt(rows: Rows, t: Trusted, tool: Tool, args: Arguments, now: int)
    ensures Text(Restore(rows, t, tool, args, now), "confirmation_id") == Text(args, "confirmation_id")
    ensures Text(args, "confirmation_id") == "" ==> Restore(rows, t, tool, args, now) == args
  {
  }

  lemma LimitIs(cfg: Config, minted: Minted, t: Trusted, tool: Tool, args: Arguments, now: int)
    requires Prepare(cfg, minted, t, tool, args, now).Fit?
    ensures tool != Cancel ==> SlotToken(tool, args) in minted
    ensures Prepare(cfg, minted, t, tool, args, now).limit == if tool == Cancel then None else Some(minted[SlotToken(tool, args)].expires)
  {
    hide SlotToken, EncodeProfile, AdoptKey, KeyParts, SlotFacts;
  }

  /** The command carries what the proposal froze: the slot as it was signed, the caller's own
      profile, and the proposal's own texts. */
  predicate Carries(minted: Minted, t: Trusted, tool: Tool, frozen: Arguments, command: Command)
    requires tool != Cancel ==> SlotToken(tool, frozen) in minted
  {
    && command.scope == t.scope && command.key == Text(frozen, "idempotency_key")
    && match tool
       case CreateBooking =>
         var c := minted[SlotToken(tool, frozen)];
         && command.CreateCommand? && command.service == c.service && command.staff == c.staff
         && command.start == c.start && command.end == c.end && command.timezone == c.timezone
         && command.profile == t.profile && command.notes == Text(frozen, "notes")
       case Reschedule =>
         var c := minted[SlotToken(tool, frozen)];
         && command.RescheduleCommand? && command.booking == Text(frozen, "booking_id")
         && command.start == c.start && command.end == c.end && command.timezone == c.timezone
       case Cancel =>
         command.CancelCommand? && command.booking == Text(frozen, "booking_id") && command.reason == Text(frozen, "reason")
  }

  lemma PreparedCarries(cfg: Config, minted: Minted, t: Trusted, tool: Tool, args: Arguments, now: int)
    requires Prepare(cfg, minted, t, tool, args, now).Fit?
    ensures var bound := Prepare(cfg, minted, t, tool, args, now).bundle - {"confirmation_id"};
            && (tool != Cancel ==> SlotToken(tool, bound) in minted)
            && Carries(minted, t, tool, bound, Prepare(cfg, minted, t, tool, args, now).command)
  {
    hide EncodeProfile, KeyParts, SlotFacts, DerivedKey;
    var bundle := Prepare(cfg, minted, t, tool, args, now).bundle;
    var bound := bundle - {"confirmation_id"};
    TokenUnchanged(tool, args, bound);
    TextWithoutId(bundle, IDEMPOTENCY_KEY);
  }

  /** What reaches the backend, and when: an unexpired confirmed (or already consumed) row of the
      same scope and tool is named, everything is still ready, and the command carries what that
      row froze. */
  lemma {:induction false} DispatchSays(cfg: Config, rows: Rows, minted: Minted, t: Trusted, tool: Tool, args: Arguments, now: int)
    requires Execute(cfg, rows, minted, t, tool, args, now).Dispatch?
    ensures var d := Execute(cfg, rows, minted, t, tool, args, now);
            && d.confirmation == Text(args, "confirmation_id") != "" && d.confirmation in rows
            && var p := rows[d.confirmation];
               && p.scope == t.scope && p.tool == tool && now < p.expiresAt && p.status in {Confirmed, Consumed}
               && d.binding == Binding(t.scope, t.message, tool, p.args)
               && Ready(cfg, minted, t, tool, p.args, now) && Carries(minted, t, tool, p.args, d.command)
  {
    hide Ready, Carries, EncodeProfile, KeyParts, SlotFacts, DerivedKey, Prepare, SlotToken;
    var restored := Restore(rows, t, tool, args, now);
    RestoredNamesIt(rows, t, tool, args, now);
    KeepsOtherFields(cfg, minted, t, tool, restored, now);
    ReadyIsFit(cfg, minted, t, tool, restored, now);
    PreparedCarries(cfg, minted, t, tool, restored, now);
    ReadyAgain(cfg, minted, t, tool, restored, Prepare(cfg, minted, t, tool, restored, now).bundle - {"confirmation_id"}, now);
  }

  lemma ReadyAgain(cfg: Config, minted: Minted, t: Trusted, tool: Tool, args: Arguments, bound: Arguments, now: int)
    requires Ready(cfg, minted, t, tool, args, now)
    requires forall k :: k !in {"customer", "idempotency_key", "confirmation_id"} ==>
               (k in bound <==> k in args) && (k in args ==> bound[k] == args[k])
    ensures Ready(cfg, minted, t, tool, bound, now)
  {
    TokenUnchanged(tool, args, bound);
  }

  /** Why a call is refused, in the order of the checks. */
  lemma RefusedBecause(cfg: Config, rows: Rows, minted: Minted, t: Trusted, tool: Tool, args: Arguments, now: int)
    requires SchemaValid(tool, args) && t.Valid()
    ensures var d := Execute(cfg, rows, minted, t, tool, args, now);
            var used := Restore(rows, t, tool, args, now);
            var token := SlotToken(tool, used);
            if tool == CreateBooking && (t.profile.name == "" || (t.profile.email == "" && t.profile.phone == "")) then d == Refuse(ContactRequired)
            else if tool != Cancel && (1024 < |token| || token !in minted) then d == Refuse(InvalidArgument)
            else if tool != Cancel && (minted[token].tenant != t.scope.tenant || minted[token].conversation != t.scope.conversation)
            then d == Refuse(PolicyDenied)
            else if !Ready(cfg, minted, t, tool, used, now) then d == Refuse(SlotUnavailable)
            else
              var id := Text(args, "confirmation_id");
              if id == "" then d.Offer?
              else if id !in rows || rows[id].scope != t.scope then d == Refuse(ConfirmationInvalid)
              else if rows[id].expiresAt <= now then d == Refuse(ConfirmationExpired)
              else
                var bound := Prepare(cfg, minted, t, tool, used, now).bundle - {"confirmation_id"};
                if rows[id].tool != tool || rows[id].args != bound then d == Refuse(ConfirmationStale)
                else if rows[id].status !in {Confirmed, Consumed} then d == Refuse(ConfirmationInvalid)
                else d.Dispatch?
  {
    hide EncodeProfile, KeyParts, SlotFacts, DerivedKey, SlotToken;
    var restored := Restore(rows, t, tool, args, now);
    RestoredNamesIt(rows, t, tool, args, now);
    KeepsOtherFields(cfg, minted, t, tool, restored, now);
    hide Restore;
  }

  lemma RefusedOutright(cfg: Config, rows: Rows, minted: Minted, t: Trusted, tool: Tool, args: Arguments, now: int)
    ensures !SchemaValid(tool, args) ==> Execute(cfg, rows, minted, t, tool, args, now) == Refuse(InvalidArgument)
    ensures SchemaValid(tool, args) && (t.scope.tenant == "" || t.scope.customer == "" || t.scope.conversation == "") ==>
              Execute(cfg, rows, minted, t, tool, args, now) == Refuse(PolicyDenied)
  {
    hide Prepare, Restore, SchemaValid;
  }

  /** A confirmation that is there and unexpired fails as stale exactly for another action, and
      as invalid exactly when it was never authorized. */
  lemma VerdictSays(rows: Rows, id: string, b: Binding, now: int)
    requires id in rows && rows[id].scope == b.scope && now < rows[id].expiresAt
    ensures VerifyRow(rows, id, b, now) == Stale <==> rows[id].tool != b.tool || rows[id].args != b.args
    ensures VerifyRow(rows, id, b, now) == Granted <==>
            rows[id].tool == b.tool && rows[id].args == b.args && (rows[id].status == Confirmed || rows[id].status == Consumed)
  {
  }

  /** The command of a frozen action, for whoever freezes it. */
  lemma CommandSays(minted: Minted, scope: Scope, tool: Tool, args: Arguments)
    requires tool != Cancel ==> SlotToken(tool, args) in minted
    ensures var command := CommandOf(minted, scope, tool, args);
            && command.scope == scope && command.key == Text(args, "idempotency_key")
            && match tool
               case CreateBooking =>
                 var c := minted[SlotToken(tool, args)];
                 && command.CreateCommand? && command.service == c.service && command.staff == c.staff
                 && command.start == c.start && command.end == c.end && command.timezone == c.timezone
                 && command.notes == Text(args, "notes")
                 && ("customer" in args ==> command.profile == DecodeProfile(args["customer"]))
               case Reschedule =>
                 var c := minted[SlotToken(tool, args)];
                 && command.RescheduleCommand? && command.booking == Text(args, "booking_id")
                 && command.start == c.start && command.end == c.end && command.timezone == c.timezone
               case Cancel =>
                 command.CancelCommand? && command.booking == Text(args, "booking_id") && command.reason == Text(args, "reason")
  {
    hide SlotToken, DecodeProfile, Text;
  }

  /** The fields a call must have, as later decoding relies on them. */
  lemma SchemaMeans(tool: Tool, args: Arguments)
    ensures SchemaValid(tool, args) <==>
            && ("confirmation_id" in args ==> args["confirmation_id"].Str?)
            && ("idempotency_key" in args ==>
                  && args["idempotency_key"].Str? && 16 <= |args["idempotency_key"].text| <= 128
                  && exists c :: c in args["idempotency_key"].text && c != ' ' && c != '\t' && c != '\n' && c != '\r')
            && (tool == CreateBooking ==> "slot_token" in args && args["slot_token"].Str? && ("notes" in args ==> args["notes"].Str?))
            && (tool != CreateBooking ==> "booking_id" in args && args["booking_id"].Str?)
            && (tool == Reschedule ==> "new_slot" in args && args["new_slot"].Obj?)
            && (tool == Cancel ==> "reason" in args && args["reason"].Str? && args["reason"].text != "")
  {
  }

  /** A call is carried out with frozen arguments exactly when it names the conversation's live,
      unexpired proposal for the same tool; otherwise with its own. */
  lemma {:induction false} RestoredExactly(rows: Rows, t: Trusted, tool: Tool, args: Arguments, now: int)
    requires OneLive(rows)
    ensures var id := Text(args, "confirmation_id");
            Restore(rows, t, tool, args, now) ==
            if && id != "" && id in rows && rows[id].scope == t.scope && rows[id].tool == tool
               && (rows[id].status == Pending || rows[id].status == Confirmed) && now < rows[id].expiresAt
            then rows[id].args["confirmation_id" := Str(id)] else args
  {
    hide OneLive;
    var id := Text(args, "confirmation_id");
    if id in rows && Current(rows[id], t.scope, now) {
      LatestFindsTheLiveRow(rows, t.scope, now, id);
    }
  }
}
