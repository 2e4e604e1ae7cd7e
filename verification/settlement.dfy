/** The settlement rule: what a bill split records as the friend's new
    balance, and how a balance is read back to the user. */
module Settlement {
  import opened Ledger

  /** Who fronted the whole bill. The form holds a string: the literal
      "user" means the user, anything else (the friend's name is the only
      other choice offered) means the friend. */
  datatype Payer = User | Other(name: string)

  function PayerOf(whoPaid: string): (p: Payer)
    ensures p.User? <==> whoPaid == "user"
    ensures p.Other? ==> p.name == whoPaid
  {
    if whoPaid == "user" then User else Other(whoPaid)
  }

  /** What the user put down at the till for this bill. */
  function Fronted(payer: Payer, bill: int): int {
    if payer.User? then bill else 0
  }

  /** The friend's new balance after a split: what the user fronted minus
      the user's own share of the bill. */
  function NewBalance(bill: int, myExpense: int, payer: Payer): (r: int)
    ensures r == Fronted(payer, bill) - myExpense
  {
    match payer
    case User => 0 + (bill - myExpense)
    case Other(_) => 0 - myExpense
  }

  /** The two payers differ by exactly the bill: whoever fronted it is owed
      the other's share. */
  lemma PayerSwapShiftsByBill(bill: int, myExpense: int, name: string)
    ensures NewBalance(bill, myExpense, User) - NewBalance(bill, myExpense, Other(name)) == bill
  {
  }

  /** A bill the user paid leaves the friend owing the friend's share, never
      negative while the expense is within the bill; a bill the friend paid
      leaves the user owing the user's share, never positive while the
      expense is not negative. */
  lemma SplitSigns(bill: int, myExpense: int, payer: Payer)
    ensures payer.User? ==> NewBalance(bill, myExpense, payer) == bill - myExpense
    ensures payer.User? && myExpense <= bill ==> NewBalance(bill, myExpense, payer) >= 0
    ensures payer.Other? ==> NewBalance(bill, myExpense, payer) == -myExpense
    ensures payer.Other? && myExpense >= 0 ==> NewBalance(bill, myExpense, payer) <= 0
  {
  }

  /** The two settled corner cases: the user's share is the whole bill and
      the user paid, or the user's share is nothing and the friend paid. */
  lemma SettledCorners(bill: int, name: string)
    ensures NewBalance(bill, bill, User) == 0
    ensures NewBalance(bill, 0, Other(name)) == 0
  {
  }

  /** A friend called "user" can never be recorded as the payer: the payer
      choice offers "user" and the friend's name, and both read as the user
      having paid. */
  lemma FriendNamedUserReadsAsUser(f: Friend)
    requires f.name == "user"
    ensures PayerOf("user") == User && PayerOf(f.name) == User
  {
  }

  /** The line shown under a friend in the list. */
  datatype Message = YouOwe(name: string, amount: int) | OwesYou(name: string, amount: int) | Even(name: string)

  function Abs(x: int): nat {
    if x < 0 then -x else x
  }

  /** Exactly one of the three messages is chosen, by the sign of the balance,
      and it always quotes the absolute value. */
  function BalanceMessage(f: Friend): (m: Message)
    ensures m.YouOwe? <==> f.balance < 0
    ensures m.OwesYou? <==> f.balance > 0
    ensures m.Even? <==> f.balance == 0
    ensures m.name == f.name
    ensures !m.Even? ==> m.amount == Abs(f.balance) > 0
  {
    if f.balance < 0 then YouOwe(f.name, Abs(f.balance))
    else if f.balance > 0 then OwesYou(f.name, Abs(f.balance))
    else Even(f.name)
  }

  /** The balance a message stands for, under the sign convention. */
  function SignedAmount(m: Message): int {
    match m
    case YouOwe(_, a) => -a
    case OwesYou(_, a) => a
    case Even(_) => 0
  }

  /** The message loses nothing: the balance can be read back from it. */
  lemma MessageDeterminesBalance(f: Friend)
    ensures SignedAmount(BalanceMessage(f)) == f.balance
  {
  }
}
