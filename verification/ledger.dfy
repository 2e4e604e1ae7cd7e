/** The friend list held by the application: its records, the balance
    overwrite performed after a bill split, and the append performed when a
    friend is added. */
module Ledger {
  import opened Wrappers

  /** One friend. A negative balance means the user owes the friend its
      absolute value, a positive one that the friend owes the user, zero
      that they are even. */
  datatype Friend = Friend(id: int, name: string, image: string, balance: int)

  /** The two records describe the same person: everything but the balance agrees. */
  predicate SameIdentity(a: Friend, b: Friend) {
    a.id == b.id && a.name == b.name && a.image == b.image
  }

  predicate HasId(friends: seq<Friend>, id: int) {
    exists i :: 0 <= i < |friends| && friends[i].id == id
  }

  /** The balance of the first friend carrying `id`, as a list lookup would find it. */
  function BalanceOf(friends: seq<Friend>, id: int): (r: Option<int>)
    ensures r.None? <==> !HasId(friends, id)
  {
    if friends == [] then None
    else if friends[0].id == id then Some(friends[0].balance)
    else
      assert forall i :: 0 < i < |friends| ==> friends[i] == friends[1..][i - 1];
      BalanceOf(friends[1..], id)
  }

  /** The per-entry step of the settlement map. */
  function Reassign(f: Friend, id: int, owe: int): Friend {
    if f.id == id then f.(balance := owe) else f
  }

  /** Settlement: every friend whose id matches gets `owe` as its new
      balance, replacing the old one; every other friend is left alone. */
  function Settle(friends: seq<Friend>, id: int, owe: int): (r: seq<Friend>)
    ensures |r| == |friends|
    ensures forall i :: 0 <= i < |friends| ==> SameIdentity(r[i], friends[i])
    ensures forall i :: 0 <= i < |friends| && friends[i].id == id ==> r[i].balance == owe
    ensures forall i :: 0 <= i < |friends| && friends[i].id != id ==> r[i] == friends[i]
    decreases |friends|
  {
    if friends == [] then []
    else [Reassign(friends[0], id, owe)] + Settle(friends[1..], id, owe)
  }

  /** A settlement whose id matches nobody leaves the list as it was. */
  lemma SettleMissingIdIsIdentity(friends: seq<Friend>, id: int, owe: int)
    requires !HasId(friends, id)
    ensures Settle(friends, id, owe) == friends
  {
    var r := Settle(friends, id, owe);
    assert forall i :: 0 <= i < |friends| ==> r[i] == friends[i];
  }

  /** After a settlement the friend's balance, looked up by id, is exactly the
      amount assigned, whatever it was before. */
  lemma {:induction false} SettledBalanceIsAssigned(friends: seq<Friend>, id: int, owe: int)
    requires HasId(friends, id)
    ensures BalanceOf(Settle(friends, id, owe), id) == Some(owe)
  {
    if friends[0].id != id {
      var k :| 0 <= k < |friends| && friends[k].id == id;
      assert friends[1..][k - 1].id == id;
      SettledBalanceIsAssigned(friends[1..], id, owe);
      assert Settle(friends, id, owe)[1..] == Settle(friends[1..], id, owe);
    }
  }

  /** Settlement overwrites rather than accumulates: a second settlement of
      the same friend erases every trace of the first. */
  lemma SettleOverwrites(friends: seq<Friend>, id: int, first: int, second: int)
    ensures Settle(Settle(friends, id, first), id, second) == Settle(friends, id, second)
  {
    var a := Settle(Settle(friends, id, first), id, second);
    var b := Settle(friends, id, second);
    assert forall i :: 0 <= i < |friends| ==> a[i] == b[i];
  }

  /** Settling one friend does not change the balance of any friend with another id. */
  lemma {:induction false} SettleLeavesOthers(friends: seq<Friend>, id: int, owe: int, other: int)
    requires other != id
    ensures BalanceOf(Settle(friends, id, owe), other) == BalanceOf(friends, other)
  {
    if friends != [] {
      SettleLeavesOthers(friends[1..], id, owe, other);
      assert Settle(friends, id, owe)[1..] == Settle(friends[1..], id, owe);
    }
  }

  /** Adding a friend: the new record goes to the end. */
  function Append(friends: seq<Friend>, f: Friend): (r: seq<Friend>)
    ensures |r| == |friends| + 1
    ensures r[..|friends|] == friends
    ensures r[|friends|] == f
  {
    friends + [f]
  }

  /** Appending a friend never changes the balance found for an id already in the list. */
  lemma {:induction false} AppendKeepsBalances(friends: seq<Friend>, f: Friend, id: int)
    requires HasId(friends, id)
    ensures BalanceOf(Append(friends, f), id) == BalanceOf(friends, id)
  {
    if friends[0].id != id {
      var k :| 0 <= k < |friends| && friends[k].id == id;
      assert friends[1..][k - 1].id == id;
      AppendKeepsBalances(friends[1..], f, id);
      assert Append(friends, f)[1..] == Append(friends[1..], f);
    }
  }
}
