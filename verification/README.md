# Eat-N-Split: the balance ledger and its state transitions

Eat-N-Split is a browser widget for splitting bills with friends. Each
friend has a balance: negative means the user owes the friend, positive
means the friend owes the user, and zero means they are even. This project
models the widget's state-update layer in `src/App.js` as pure Dafny
functions over immutable data, and proves properties about it:

- `Ledger` (`ledger.dfy`): the `Friend` record and the friend list. It
  covers `seperate`, the map that overwrites one friend's balance, and the
  append done by `handleAddFriend`.
- `Settlement` (`settlement.dfy`): the rule in `handleBillSplit`. It
  computes a friend's new balance from the bill, the user's own expense and
  who paid (the string `"user"`, or anything else). It also covers the
  three-way balance message the `Friend` component shows.
- `Forms` (`forms.dfy`): the split-bill form's field handlers, including the
  expense clamp, and its submit guard. Also the add-friend form's guard and
  the record it builds with balance 0.
- `App` (`app.dfy`): the application state. It holds the list, the
  `showAddFriend` flag and the `selectedFriend` slot (`Option<Friend>`,
  compared by id), plus every transition the handlers perform.
- `Wrappers` (`wrappers.dfy`): the `Option` type.

Amounts are unbounded integers. An empty bill or expense field acts exactly
like 0 everywhere the source reads it (`Number("")` is 0, `!""` holds, and
`x > ""` compares with 0), so 0 stands for an empty field. The friend's id,
which the source takes from the clock, is a parameter.

Behaviours of the code worth knowing:

- The payer is a string. Only the literal `"user"` means the user paid. A
  friend named `"user"` therefore can never be recorded as the payer.
- The submit guard blocks only a zero bill or an empty payer. A negative bill
  goes through.
- The expense clamp runs only when the expense is edited. So the expense can
  end up above the bill (see Findings). A negative expense is also accepted.
- Settlement rewrites every friend whose id matches. Ids are not checked for
  uniqueness anywhere.
- The Close button on the selected friend does not clear the selection. It
  passes no friend to `handleSelection`, which then reads the id of nothing
  and fails. The model records this as an explicit `NullDereference`
  outcome.
- After a split the selection keeps its old snapshot of the friend,
  including the balance from before the split.

## Model

| member | source | states |
|---|---|---|
| Ledger.Settle | src/App.js:69-75 | length and order kept; every entry keeps its id, name and image; each entry whose id matches gets exactly the new balance, and every other entry is unchanged |
| Ledger.SettleMissingIdIsIdentity | src/App.js:70-74 | if no friend has the id, the list is unchanged |
| Ledger.SettledBalanceIsAssigned | src/App.js:72 | afterwards the balance looked up by the id is the assigned amount, whatever the old balance was |
| Ledger.SettleOverwrites | src/App.js:72 | settling the same id twice equals settling once with the second amount: balances are overwritten, never added up |
| Ledger.SettleLeavesOthers | src/App.js:71-73 | the balance found for any other id is not affected |
| Ledger.Append | src/App.js:43 | the list grows by one, the old list is the unchanged prefix, and the new record is last |
| Ledger.AppendKeepsBalances | src/App.js:43 | appending keeps the balance found for every id already present |
| Settlement.PayerOf | src/App.js:56 | the payer is the user exactly when the form value is "user"; any other value names the friend |
| Settlement.NewBalance | src/App.js:55-64 | the new balance is what the user fronted (the whole bill if the user paid, nothing otherwise) minus the user's own expense |
| Settlement.PayerSwapShiftsByBill | src/App.js:56-63 | for the same bill and expense, the balance when the user paid exceeds the balance when the friend paid by exactly the bill |
| Settlement.SplitSigns | src/App.js:56-63 | a user-paid split gives bill - expense, which is >= 0 whenever expense <= bill; a friend-paid split gives -expense, which is <= 0 whenever expense >= 0 |
| Settlement.SettledCorners | src/App.js:56-63 | the user paid and the expense is the whole bill, or the friend paid and the expense is 0: either way the balance is 0 |
| Settlement.FriendNamedUserReadsAsUser | src/App.js:199-201 | for a friend named "user", both payer options the form offers ("user" and the friend's name) read as the user paying, so that friend can never be recorded as payer |
| Settlement.BalanceMessage | src/App.js:137-147 | exactly one of "you owe", "owes you" and "even" is chosen, by the sign of the balance; it names the friend and quotes abs(balance), which is positive in the two owing cases |
| Settlement.MessageDeterminesBalance | src/App.js:137-147 | the balance can be read back from the message under the sign convention |
| Forms.SetBill | src/App.js:177-181 | a bill edit replaces the bill and leaves the expense and payer alone |
| Forms.SetExpense | src/App.js:187-192 | an expense edit is accepted when it is <= the bill and otherwise leaves the form unchanged; it keeps expense <= bill once that holds |
| Forms.SetWhoPaid | src/App.js:199 | the payer choice replaces whoPaid and nothing else |
| Forms.BillEditEscapesClamp | src/App.js:180-191 | shortening the bill after the expense is set lets a submittable form carry an expense above the bill; a user-paid split then records -35 |
| Forms.SetBillClamped | src/App.js:180 | corrected bill edit: it sets the bill, keeps an expense the new bill covers, and sets an expense the bill no longer covers to exactly the new bill, so expense <= bill holds |
| Forms.CorrectedEditsKeepExpenseWithinBill | src/App.js:187-192 | with the corrected bill edit, any run of edits keeps expense <= bill, so a user-paid split with a non-negative expense never gives a negative balance |
| Forms.HandleAdd | src/App.js:213-231 | blocked exactly when the name or image is empty, and then the form is kept; otherwise the record has the given id, the name, the image as a prefix of its image and balance 0, and the form is reset |
| App.ToggleShowAddFriend | src/App.js:38-40 | flips the flag and changes nothing else |
| App.ToggleTwiceRestores | src/App.js:39 | toggling twice restores the state |
| App.AddFriend | src/App.js:42-46 | appends the record at the end with the prefix unchanged, closes the add-friend form and keeps the selection |
| App.Select | src/App.js:48-53 | the selection is cleared exactly when the friend's id equals the selected id, and otherwise becomes that friend; the flag becomes false; the list is untouched |
| App.SelectTwiceClears | src/App.js:50 | starting with nothing selected, selecting a friend and then any record with the same id leaves nothing selected |
| App.SelectButton | src/App.js:122-130 | on the selected friend the button fails with a null dereference; otherwise it performs the selection: that friend becomes selected, the add-friend form closes and the list is untouched |
| App.BillSplit | src/App.js:55-67 | matching friends keep their identity and get fronted-minus-expense as balance; other friends, the flag and the selection snapshot are unchanged |
| App.SubmitSplit | src/App.js:161-170 | a zero bill or empty payer leaves the state and form unchanged; otherwise the split is applied to the selected friend's id (that friend's balance becomes the settlement amount), the selection snapshot stays, and the form resets |
| App.SecondSplitDiscardsFirst | src/App.js:69-75 | two submitted splits with the same selected friend leave the same list as the second alone |
| App.SubmitAddFriend | src/App.js:213-231 | blocked with an empty name or image; otherwise exactly one record with the given id and balance 0 is appended at the end, the prefix is unchanged, the new record carries the form's name and starts with its image, the selection is kept, the add-friend form closes and the form resets |
| App.AddingKeepsExistingBalances | src/App.js:42-46 | adding a friend keeps the balance of every friend already present |
| App.ClarkScenario | src/App.js:55-59 | Clark (balance -7) with bill 20, expense 5 and the user paying ends with balance 15 |
| App.SarahScenario | src/App.js:60-63 | Sarah (balance 20) with bill 50, expense 50 and Sarah paying ends with balance -50 |

## Left out

- Rendering, the `Button` component, React hooks and mounting
  (src/App.js:25-31, 77-116, 254-259): these are presentation only. Each
  `useState` slot becomes a field of a state record.
- The `console.log` calls (src/App.js:58, 62, 226): side effects with no
  effect on state.
- Id generation by `Date.now()` (src/App.js:219): the id is a non-negative
  parameter. Nothing in the source makes ids unique, and the model does not
  claim they are.
- `Number(...)` parsing, `NaN` and IEEE floating point (src/App.js:180, 190,
  196): amounts are integers, and an empty field is 0.
- The friend's-expense display field (src/App.js:196): it is only shown on
  screen.

## Findings

| source | as written | input that shows it | evidently intended | confidence | as-written member | corrected member |
|---|---|---|---|---|---|---|
| src/App.js:180 | the bill handler replaces the bill without re-checking the expense, so only expense edits are clamped | bill 50, expense 40, then bill edited to 5, user pays: the balance becomes -35, so the user owes the friend for a bill the user paid | the expense never exceeds the bill (the comment at src/App.js:188) | high; not executed | Forms.BillEditEscapesClamp | Forms.SetBillClamped |
