/**
 * The record and message shapes the state containers work on (types.ts).
 * Amounts are whole cents, so every sum below is exact; timestamps are not modelled.
 */
module Types {

  /** An `Expense` or a `Saving`: the two records have the same fields. */
  datatype Entry = Entry(id: string, description: string, amount: int, category: string, date: string)

  datatype Role = User | Model

  /** A chat message; an absent `isStreaming` is modelled as `false`. */
  datatype Message = Message(id: string, role: Role, text: string, isStreaming: bool)
}
