/** Vocabulary shared by the confirmation store, the tool gateway and the turn protocol. */
module Domain {

  datatype Option<+T> = None | Some(value: T)

  /** JSON values as they reach the gateway: objects are maps, so key order and
      re-encoding by the database do not matter. */
  datatype Json = Str(text: string) | Obj(fields: map<string, Json>)

  type Arguments = map<string, Json>

  datatype Tool = CreateBooking | Reschedule | Cancel

  /** The owner of an action: every row and every command carries all three. */
  datatype Scope = Scope(tenant: string, customer: string, conversation: string)

  datatype Profile = Profile(name: string, email: string, phone: string)

  /** The server-side context of a call. Nothing in it comes from the model. */
  datatype Trusted = Trusted(scope: Scope, message: string, profile: Profile) {
    predicate Valid() {
      scope.tenant != "" && scope.customer != "" && scope.conversation != ""
    }
  }

  /** What a proposal freezes. The digest of the canonical arguments is ideal, so
      comparing digests is comparing argument objects. */
  datatype Binding = Binding(scope: Scope, message: string, tool: Tool, args: Arguments)

  datatype Role = User | Assistant

  datatype Message = Message(scope: Scope, role: Role, createdAt: int)

  /** The text of a string field, or the empty string when the field is absent,
      as Go's JSON decoding of a struct field. */
  function Text(args: Arguments, key: string): string {
    if key in args && args[key].Str? then args[key].text else ""
  }

  function Min(a: int, b: int): int {
    if a < b then a else b
  }

  function Pow2(n: nat): nat {
    if n == 0 then 1 else 2 * Pow2(n - 1)
  }
}
