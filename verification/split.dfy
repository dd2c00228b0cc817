/**
 The bill-splitting screen: a list of friends the payer can select, a bill
 amount, and the share each person pays, which is the amount divided
 between the selected friends and the payer. The share is kept unrounded.
 */
module InstantSplit {

  /** One friend on the screen. */
  datatype Friend = Friend(id: int, name: string, selected: bool)

  /** The bill amount as typed: nothing yet, or a number. */
  datatype BillAmount = Empty | Entered(value: real)

  /** The friends shown when the screen opens, none selected. */
  const InitialFriends: seq<Friend> := [
    Friend(1, "Alex", false),
    Friend(2, "Sam", false),
    Friend(3, "Jordan", false),
    Friend(4, "Taylor", false)
  ]

  /** `f` with its selection flipped when its id is `id`, otherwise `f` itself. */
  function ToggleOne(f: Friend, id: int): Friend
  {
    if f.id == id then f.(selected := !f.selected) else f
  }

  /** The friend list after clicking the button of friend `id`. */
  function Toggle(friends: seq<Friend>, id: int): (r: seq<Friend>)
    ensures |r| == |friends|
  {
    if friends == [] then [] else [ToggleOne(friends[0], id)] + Toggle(friends[1..], id)
  }

  /** How many friends are selected. */
  function SelectedCount(friends: seq<Friend>): (n: nat)
    ensures n <= |friends|
  {
    if friends == [] then 0
    else (if friends[0].selected then 1 else 0) + SelectedCount(friends[1..])
  }

  /** The number of people sharing the bill: the selected friends and the payer. */
  function Divisor(friends: seq<Friend>): (d: nat)
    ensures 1 <= d <= |friends| + 1
  {
    SelectedCount(friends) + 1
  }

  /** The share each person pays. An empty amount gives 0; otherwise the
      shares of everybody taking part add up to the amount. */
  function Split(amount: BillAmount, friends: seq<Friend>): (r: real)
    ensures amount.Empty? ==> r == 0.0
    ensures amount.Entered? ==> r * (Divisor(friends) as real) == amount.value
    ensures amount == Entered(0.0) ==> r == 0.0
  {
    match amount
    case Empty => 0.0
    case Entered(v) => v / (Divisor(friends) as real)
  }

  /** Toggling flips exactly the friends whose id is `id`. */
  lemma {:induction false} ToggleAt(friends: seq<Friend>, id: int, k: nat)
    requires k < |friends|
    ensures Toggle(friends, id)[k] == ToggleOne(friends[k], id)
  {
    if k > 0 {
      ToggleAt(friends[1..], id, k - 1);
    }
  }

  /** Toggling keeps the length, order, ids and names of the list, and a
      friend changes if and only if its id is the toggled one. */
  lemma ToggleKeepsShape(friends: seq<Friend>, id: int)
    ensures |Toggle(friends, id)| == |friends|
    ensures forall k :: 0 <= k < |friends| ==>
      Toggle(friends, id)[k].id == friends[k].id &&
      Toggle(friends, id)[k].name == friends[k].name &&
      (Toggle(friends, id)[k].selected == !friends[k].selected <==> friends[k].id == id) &&
      (Toggle(friends, id)[k] != friends[k] <==> friends[k].id == id)
  {
    forall k | 0 <= k < |friends|
      ensures Toggle(friends, id)[k] == ToggleOne(friends[k], id)
    {
      ToggleAt(friends, id, k);
    }
  }

  /** Clicking the same friend twice restores the list. */
  lemma {:induction false} ToggleTwice(friends: seq<Friend>, id: int)
    ensures Toggle(Toggle(friends, id), id) == friends
  {
    if friends != [] {
      ToggleTwice(friends[1..], id);
      var t := Toggle(friends, id);
      assert t[1..] == Toggle(friends[1..], id);
    }
  }

  /** With no friend selected the count is zero. */
  lemma {:induction false} NoneSelected(friends: seq<Friend>)
    requires forall k :: 0 <= k < |friends| ==> !friends[k].selected
    ensures SelectedCount(friends) == 0
  {
    if friends != [] {
      NoneSelected(friends[1..]);
    }
  }

  /** When the ids are distinct, toggling a friend that is on the list
      changes the number of people sharing by exactly one. */
  lemma {:induction false} ToggleChangesCountByOne(friends: seq<Friend>, id: int, k: nat)
    requires k < |friends| && friends[k].id == id
    requires forall i, j :: 0 <= i < j < |friends| ==> friends[i].id != friends[j].id
    ensures SelectedCount(Toggle(friends, id)) ==
      if friends[k].selected then SelectedCount(friends) - 1 else SelectedCount(friends) + 1
  {
    var t := Toggle(friends, id);
    assert t[1..] == Toggle(friends[1..], id);
    if k == 0 {
      ToggleAbsent(friends[1..], id);
    } else {
      ToggleChangesCountByOne(friends[1..], id, k - 1);
    }
  }

  /** Toggling an id that no friend has leaves the list as it is. */
  lemma {:induction false} ToggleAbsent(friends: seq<Friend>, id: int)
    requires forall i :: 0 <= i < |friends| ==> friends[i].id != id
    ensures Toggle(friends, id) == friends
  {
    if friends != [] {
      ToggleAbsent(friends[1..], id);
    }
  }

  /** With nobody selected the payer pays the whole amount. */
  lemma SplitNobodySelected(value: real, friends: seq<Friend>)
    requires forall k :: 0 <= k < |friends| ==> !friends[k].selected
    ensures Split(Entered(value), friends) == value
  {
    NoneSelected(friends);
  }

  /** The opening screen: four unselected friends with ids 1 to 4, and a share of 0. */
  lemma InitialState()
    ensures |InitialFriends| == 4
    ensures forall k :: 0 <= k < 4 ==> InitialFriends[k].id == k + 1 && !InitialFriends[k].selected
    ensures Divisor(InitialFriends) == 1
    ensures Split(Empty, InitialFriends) == 0.0
  {
    NoneSelected(InitialFriends);
  }

  /** The screen's state. `splitAmount` always is the share computed from
      the current amount and friend list. */
  class SplitScreen {
    var amount: BillAmount
    var friends: seq<Friend>
    var splitAmount: real

    ghost predicate Valid()
      reads this
    {
      splitAmount == Split(amount, friends)
    }

    constructor ()
      ensures Valid()
      ensures amount == Empty && friends == InitialFriends && splitAmount == 0.0
    {
      amount := Empty;
      friends := InitialFriends;
      splitAmount := 0.0;
    }

    /** Recomputes the share from the given amount and friend list. */
    method CalculateSplit(total: BillAmount, updated: seq<Friend>)
      modifies this`splitAmount
      ensures splitAmount == Split(total, updated)
    {
      splitAmount := Split(total, updated);
    }

    /** A click on friend `id`: flips that friend and recomputes the share. */
    method HandleFriendToggle(id: int)
      modifies this`friends, this`splitAmount
      ensures Valid()
      ensures friends == Toggle(old(friends), id) && amount == old(amount)
    {
      var updatedFriends := Toggle(friends, id);
      friends := updatedFriends;
      CalculateSplit(amount, updatedFriends);
    }

    /** A new bill amount, typed or picked from the quick amounts. */
    method HandleAmountChange(value: BillAmount)
      modifies this`amount, this`splitAmount
      ensures Valid()
      ensures amount == value && friends == old(friends)
    {
      amount := value;
      CalculateSplit(value, friends);
    }
  }
}
