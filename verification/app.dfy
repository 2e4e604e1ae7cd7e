/** The top-level application state and its transitions: the friend list,
    the "show add-friend form" flag and the selected-friend slot. */
module App {
  import opened Wrappers
  import opened Ledger
  import opened Settlement
  import opened Forms

  /** The selected friend is a snapshot of the record taken when it was
      selected; only its id is ever compared. */
  datatype AppState = AppState(friends: seq<Friend>, showAddFriend: bool, selected: Option<Friend>)

  const InitialFriends := [
    Friend(118836, "Clark", "https://i.pravatar.cc/48?u=118836", -7),
    Friend(933372, "Sarah", "https://i.pravatar.cc/48?u=933372", 20),
    Friend(499476, "Anthony", "https://i.pravatar.cc/48?u=499476", 0)
  ]

  const InitialState := AppState(InitialFriends, false, None)

  /** Whether `f` is the friend currently selected (compared by id; nothing
      is selected when the slot is empty). */
  predicate IsSelected(selected: Option<Friend>, f: Friend) {
    selected.Some? && selected.value.id == f.id
  }

  /** The "Add Friend" / "Close" button: flips the flag and nothing else. */
  function ToggleShowAddFriend(s: AppState): (r: AppState)
    ensures r.showAddFriend != s.showAddFriend
    ensures r.friends == s.friends && r.selected == s.selected
  {
    s.(showAddFriend := !s.showAddFriend)
  }

  lemma ToggleTwiceRestores(s: AppState)
    ensures ToggleShowAddFriend(ToggleShowAddFriend(s)) == s
  {
  }

  /** Adding a friend appends it and closes the add-friend form. */
  function AddFriend(s: AppState, f: Friend): (r: AppState)
    ensures |r.friends| == |s.friends| + 1
    ensures r.friends[..|s.friends|] == s.friends && r.friends[|s.friends|] == f
    ensures !r.showAddFriend
    ensures r.selected == s.selected
  {
    AppState(Append(s.friends, f), false, s.selected)
  }

  /** Selecting a friend: selecting the one already selected clears the
      slot, any other becomes the selection. Either way the add-friend form
      closes and the list is untouched. */
  function Select(s: AppState, f: Friend): (r: AppState)
    ensures r.selected.None? <==> IsSelected(s.selected, f)
    ensures r.selected.Some? ==> r.selected.value == f
    ensures !r.showAddFriend
    ensures r.friends == s.friends
  {
    s.(selected := if IsSelected(s.selected, f) then None else Some(f), showAddFriend := false)
  }

  /** Selection toggles: selecting the same friend twice from an empty slot
      leaves the slot empty again, and any record with that id selects it. */
  lemma SelectTwiceClears(s: AppState, f: Friend, g: Friend)
    requires s.selected.None? && g.id == f.id
    ensures Select(s, f).selected == Some(f)
    ensures Select(Select(s, f), g).selected.None?
  {
  }

  /** What pressing a friend's Select/Close button does. */
  datatype ButtonOutcome = Updated(state: AppState) | NullDereference

  /** The Select/Close button. On an unselected friend it selects; on the
      selected one it hands no friend to the selection handler, which then
      reads the id of nothing and fails. */
  function SelectButton(s: AppState, f: Friend): (r: ButtonOutcome)
    ensures r.NullDereference? <==> IsSelected(s.selected, f)
    ensures r.Updated? ==> r.state.selected == Some(f) && r.state.friends == s.friends
    ensures r.Updated? ==> !r.state.showAddFriend && r.state == Select(s, f)
  {
    if IsSelected(s.selected, f) then NullDereference else Updated(Select(s, f))
  }

  /** A bill split against `selected`: its balance is overwritten with the
      settlement amount; the flag and the selection, including its stale
      balance snapshot, stay as they were. */
  function BillSplit(s: AppState, bill: int, myExpense: int, whoPaid: string, selected: Friend): (r: AppState)
    ensures r.showAddFriend == s.showAddFriend && r.selected == s.selected
    ensures |r.friends| == |s.friends|
    ensures forall i :: 0 <= i < |s.friends| && s.friends[i].id == selected.id ==>
              SameIdentity(r.friends[i], s.friends[i])
              && r.friends[i].balance == Fronted(PayerOf(whoPaid), bill) - myExpense
    ensures forall i :: 0 <= i < |s.friends| && s.friends[i].id != selected.id ==>
              r.friends[i] == s.friends[i]
  {
    s.(friends := Settle(s.friends, selected.id, NewBalance(bill, myExpense, PayerOf(whoPaid))))
  }

  /** Submitting the split-bill form, which is only shown while a friend is
      selected. A zero bill or an empty payer leaves everything as it was;
      otherwise the split is applied and the form is reset. */
  function SubmitSplit(s: AppState, form: SplitForm): (r: (AppState, SplitForm))
    requires s.selected.Some?
    ensures !CanSubmit(form) ==> r == (s, form)
    ensures CanSubmit(form) ==> r.1 == EmptySplitForm && r.0.selected == s.selected
    ensures CanSubmit(form) ==> r.0 == BillSplit(s, form.bill, form.myExpense, form.whoPaid, s.selected.value)
    ensures CanSubmit(form) && HasId(s.friends, s.selected.value.id) ==>
              BalanceOf(r.0.friends, s.selected.value.id)
              == Some(NewBalance(form.bill, form.myExpense, PayerOf(form.whoPaid)))
  {
    if !CanSubmit(form) then (s, form)
    else
      var id := s.selected.value.id;
      var r := (BillSplit(s, form.bill, form.myExpense, form.whoPaid, s.selected.value), EmptySplitForm);
      if HasId(s.friends, id) then
        SettledBalanceIsAssigned(s.friends, id, NewBalance(form.bill, form.myExpense, PayerOf(form.whoPaid)));
        r
      else r
  }

  /** A second split with the same friend discards the first one: the
      balance depends only on the last split. */
  lemma SecondSplitDiscardsFirst(s: AppState, first: SplitForm, second: SplitForm)
    requires s.selected.Some? && CanSubmit(first) && CanSubmit(second)
    ensures SubmitSplit(SubmitSplit(s, first).0, second).0 == SubmitSplit(s, second).0
  {
    var id := s.selected.value.id;
    SettleOverwrites(s.friends, id,
      NewBalance(first.bill, first.myExpense, PayerOf(first.whoPaid)),
      NewBalance(second.bill, second.myExpense, PayerOf(second.whoPaid)));
  }

  /** Submitting the add-friend form with a fresh `id`: blocked when a field
      is empty; otherwise one record with balance 0 is appended, existing
      balances are kept and the form closes. */
  function SubmitAddFriend(s: AppState, form: AddForm, id: nat): (r: (AppState, AddForm))
    ensures r.0.selected == s.selected
    ensures form.name == "" || form.image == "" ==> r == (s, form)
    ensures form.name != "" && form.image != "" ==>
              && |r.0.friends| == |s.friends| + 1
              && r.0.friends[..|s.friends|] == s.friends
              && r.0.friends[|s.friends|].id == id
              && r.0.friends[|s.friends|].balance == 0
              && r.0.friends[|s.friends|].name == form.name
              && form.image <= r.0.friends[|s.friends|].image
              && !r.0.showAddFriend
              && r.1 == EmptyAddForm
  {
    var (made, reset) := HandleAdd(form, id);
    match made
    case None => (s, form)
    case Some(f) => (AddFriend(s, f), reset)
  }

  /** Adding a friend leaves the balance of every friend already present unchanged. */
  lemma AddingKeepsExistingBalances(s: AppState, form: AddForm, id: nat, existing: int)
    requires HasId(s.friends, existing)
    ensures BalanceOf(SubmitAddFriend(s, form, id).0.friends, existing) == BalanceOf(s.friends, existing)
  {
    var made := HandleAdd(form, id).0;
    if made.Some? {
      AppendKeepsBalances(s.friends, made.value, existing);
    }
  }

  /** Clark starts at -7; a 20 bill with the user's share 5, paid by the user, leaves him owing 15. */
  lemma ClarkScenario()
    ensures var s := Select(InitialState, InitialFriends[0]);
            BalanceOf(SubmitSplit(s, SplitForm(20, 5, "user")).0.friends, 118836) == Some(15)
  {
    var s := Select(InitialState, InitialFriends[0]);
    SettledBalanceIsAssigned(s.friends, 118836, 15);
  }

  /** Sarah starts at 20; a 50 bill that is all the user's share, paid by Sarah, leaves the user owing her 50. */
  lemma SarahScenario()
    ensures var s := Select(InitialState, InitialFriends[1]);
            BalanceOf(SubmitSplit(s, SplitForm(50, 50, "Sarah")).0.friends, 933372) == Some(-50)
  {
    var s := Select(InitialState, InitialFriends[1]);
    SettledBalanceIsAssigned(s.friends, 933372, -50);
  }
}
