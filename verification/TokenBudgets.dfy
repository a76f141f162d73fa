/** The two budgets as the objects the runner holds. */
module TokenBudgets {
  import opened Domain
  import opened Budget

  class MemoryTokenBudget {
    const limit: int
    var accounted: map<string, int>

    ghost function Of(conversation: string): Memory
      reads this
    {
      Memory(if conversation in accounted then accounted[conversation] else 0, limit)
    }

    constructor (limit: int)
      requires 0 < limit
      ensures this.limit == limit && forall c :: Of(c) == Memory(0, limit)
    {
      this.limit := limit;
      accounted := map[];
    }

    method Reserve(conversation: string, tokens: int) returns (r: Option<MemoryReservation>)
      modifies this
      ensures r.Some? <==> conversation != "" && MemoryReserve(old(Of(conversation)), tokens).1 == Accepted
      ensures r.Some? <==> conversation != "" && 0 < tokens && old(Of(conversation)).accounted + tokens <= limit
      ensures Of(conversation).accounted == old(Of(conversation)).accounted + if r.Some? then tokens else 0
      ensures forall c :: c != conversation ==> Of(c) == old(Of(c))
      ensures r.Some? ==> fresh(r.value) && r.value.budget == this && r.value.conversation == conversation
      ensures r.Some? ==> r.value.tokens == tokens && !r.value.settled
    {
      if conversation == "" || tokens <= 0 {
        return None;
      }
      var sofar := if conversation in accounted then accounted[conversation] else 0;
      if tokens > limit - sofar {
        return None;
      }
      accounted := accounted[conversation := sofar + tokens];
      var handle := new MemoryReservation(this, conversation, tokens);
      return Some(handle);
    }
  }

  class MemoryReservation {
    const budget: MemoryTokenBudget
    const conversation: string
    const tokens: int
    var settled: bool

    constructor (budget: MemoryTokenBudget, conversation: string, tokens: int)
      ensures this.budget == budget && this.conversation == conversation && this.tokens == tokens && !settled
    {
      this.budget, this.conversation, this.tokens, settled := budget, conversation, tokens, false;
    }

    method Settle(actual: int) returns (answer: Answer)
      requires conversation in budget.accounted
      modifies this, budget
      ensures (budget.Of(conversation), answer) ==
              MemorySettle(old(budget.Of(conversation)), Handle(tokens, old(settled), 0), actual)
      ensures answer == if actual < 0 || old(settled) then Invalid else if tokens < actual then Overrun else Accepted
      ensures budget.Of(conversation).accounted ==
              old(budget.Of(conversation)).accounted - (if answer == Accepted then tokens - actual else 0)
      ensures settled <==> old(settled) || 0 <= actual
      ensures forall c :: c != conversation ==> budget.Of(c) == old(budget.Of(c))
    {
      if actual < 0 || settled {
        return Invalid;
      }
      settled := true;
      if actual > tokens {
        return Overrun;
      }
      budget.accounted := budget.accounted[conversation := budget.accounted[conversation] - (tokens - actual)];
      return Accepted;
    }
  }

  /** The conversations table, as far as tokens go. */
  class ConversationStore {
    var rows: map<string, Row>

    method ReserveTokens(conversation: string, amount: int) returns (answer: Answer)
      modifies this
      ensures conversation in old(rows) ==>
                && conversation in rows && rows == old(rows)[conversation := rows[conversation]]
                && (rows[conversation], answer) == RowReserve(old(rows)[conversation], amount)
      ensures conversation in old(rows) ==>
                var row := old(rows)[conversation];
                && (answer == Accepted <==> 1 <= amount && row.used + row.reserved + amount <= row.budget)
                && rows == if answer == Accepted then old(rows)[conversation := row.(reserved := row.reserved + amount)] else old(rows)
      ensures conversation !in old(rows) ==> rows == old(rows) && answer != Accepted
    {
      if amount < 1 {
        return Invalid;
      }
      if conversation !in rows || rows[conversation].used + rows[conversation].reserved + amount > rows[conversation].budget {
        return Refused;
      }
      var row := rows[conversation];
      rows := rows[conversation := row.(reserved := row.reserved + amount)];
      return Accepted;
    }

    method SettleTokens(conversation: string, reserved: int, actual: int) returns (answer: Answer)
      modifies this
      ensures conversation in old(rows) ==>
                && conversation in rows && rows == old(rows)[conversation := rows[conversation]]
                && (rows[conversation], answer) == RowSettleTokens(old(rows)[conversation], reserved, actual)
      ensures conversation in old(rows) ==>
                var row := old(rows)[conversation];
                && (answer == Accepted <==>
                      1 <= reserved <= row.reserved && 0 <= actual <= reserved && row.used + actual <= row.budget)
                && rows == if answer == Accepted
                           then old(rows)[conversation := row.(reserved := row.reserved - reserved, used := row.used + actual)] else old(rows)
      ensures conversation !in old(rows) ==> rows == old(rows) && answer != Accepted
    {
      if reserved < 1 || actual < 0 || actual > reserved {
        return Refused;
      }
      if conversation !in rows || rows[conversation].reserved < reserved
         || rows[conversation].used + actual > rows[conversation].budget {
        return Refused;
      }
      var row := rows[conversation];
      rows := rows[conversation := row.(reserved := row.reserved - reserved, used := row.used + actual)];
      return Accepted;
    }

    method RecalibrateInflatedUsage(measured: map<string, int>)
      modifies this
      ensures rows.Keys == old(rows).Keys
      ensures forall c :: c in rows ==>
                && rows[c] == (if c in measured then RowRecalibrate(old(rows)[c], measured[c]) else old(rows)[c])
                && rows[c] == (if c in measured && old(rows)[c].open && old(rows)[c].reserved == 0 && measured[c] < old(rows)[c].used
                               then old(rows)[c].(used := measured[c]) else old(rows)[c])
    {
      rows := map c | c in rows ::
        if c in measured && rows[c].open && rows[c].reserved == 0 && rows[c].used > measured[c]
        then rows[c].(used := measured[c]) else rows[c];
    }
  }

  class StoredReservation {
    const store: ConversationStore
    const conversation: string
    const tokens: int
    var settled: bool

    constructor (store: ConversationStore, conversation: string, tokens: int)
      ensures this.store == store && this.conversation == conversation && this.tokens == tokens && !settled
    {
      this.store, this.conversation, this.tokens, settled := store, conversation, tokens, false;
    }

    /** An impossible report still charges the whole reservation. */
    method Settle(actual: int) returns (answer: Answer)
      requires conversation in store.rows
      modifies this, store
      ensures settled && conversation in store.rows
      ensures (store.rows[conversation], answer) ==
              RowSettle(old(store.rows)[conversation], Handle(tokens, old(settled), 0), actual)
      ensures old(settled) ==> store.rows == old(store.rows) && answer == Invalid
      ensures !old(settled) ==>
                var row, charge := old(store.rows)[conversation], if 0 <= actual <= tokens then actual else tokens;
                && (answer in {Accepted, Overrun} <==> 1 <= tokens <= row.reserved && row.used + charge <= row.budget)
                && (answer == Overrun ==> actual < 0 || tokens < actual) && (answer == Accepted ==> 0 <= actual <= tokens)
                && store.rows[conversation] ==
                   (if answer in {Accepted, Overrun} then row.(reserved := row.reserved - tokens, used := row.used + charge) else row)
      ensures store.rows == old(store.rows)[conversation := store.rows[conversation]]
    {
      if settled {
        return Invalid;
      }
      settled := true;
      if actual < 0 || actual > tokens {
        answer := store.SettleTokens(conversation, tokens, tokens);
        return if answer == Accepted then Overrun else answer;
      }
      answer := store.SettleTokens(conversation, tokens, actual);
    }
  }
}
