/** Option and Result, used for values the source may lack and operations that may throw. */
module Wrappers {

  datatype Option<+T> = None | Some(value: T)

  datatype Result<+T, +E> = Ok(value: T) | Err(error: E)
}

/**
 * The records of the application (types.ts).
 *
 * Amounts are whole paise (`int`): the source keeps them as JavaScript numbers,
 * whose rounding would break every exact sum law proved about the dashboard.
 */
module Types {

  /** The two kinds of entry (`TransactionType`). */
  datatype TransactionType = INCOME | EXPENSE

  /** One recorded income or expense event (`Transaction`). */
  datatype Transaction = Transaction(
    id: string,
    amount: int,
    category: string,
    description: string,
    date: string,
    txType: TransactionType)

  /** The advice returned by the provider (`AIInsight`). */
  datatype AIInsight = AIInsight(summary: string, tips: seq<string>, healthScore: int)
}
