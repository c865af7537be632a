/**
  The app's state machine: the friend list, the selected friend and whether the
  add-friend panel is open, with one method per handler. Each handler is one
  atomic state change. The two Submit methods wire a form's submit handler to
  the app handler it calls back.
*/
module AppState {

  import opened Wrappers
  import opened Friends
  import opened Forms

  /** The selection after the user clicks `f`'s select button: clicking the
      selected friend (compared by id) clears the selection, clicking any other
      friend selects it. */
  function Toggled(selected: Option<Friend>, f: Friend): (r: Option<Friend>)
    ensures r.None? <==> selected.Some? && selected.value.id == f.id
    ensures r.Some? ==> r.value == f
  {
    if selected.Some? && selected.value.id == f.id then None else Some(f)
  }

  /** Clicking the same friend twice ends with that friend selected when it
      was selected at the start, and with nothing selected otherwise. */
  lemma {:induction false} ToggledTwice(selected: Option<Friend>, f: Friend)
    ensures Toggled(Toggled(selected, f), f)
         == if selected.Some? && selected.value.id == f.id then Some(f) else None
  {
    if selected.Some? && selected.value.id == f.id {
      assert Toggled(selected, f) == None;
    } else {
      assert Toggled(selected, f) == Some(f);
    }
  }

  /** From no selection, clicking the same friend twice returns to no selection. */
  lemma ToggledTwiceFromNone(f: Friend)
    ensures Toggled(Toggled(None, f), f) == None
  {
    ToggledTwice(None, f);
  }

  /** Clicking the same friend twice is not an involution: with another friend
      selected at the start, the selection ends empty. */
  lemma ToggledTwiceForgetsOther()
    ensures Toggled(Toggled(Some(InitialFriends[0]), InitialFriends[1]), InitialFriends[1]) == None
  {
    ToggledTwice(Some(InitialFriends[0]), InitialFriends[1]);
  }

  class App {
    var friends: seq<Friend>
    var selected: Option<Friend>
    var showAddFriend: bool

    /** Identifiers are unique, and a selected friend is a record of the list. */
    ghost predicate Valid()
      reads this
    {
      UniqueIds(friends) && (selected.Some? ==> selected.value in friends)
    }

    /** The app starts with the seed list, nothing selected and the panel closed. */
    constructor ()
      ensures Valid()
      ensures friends == InitialFriends && selected == None && !showAddFriend
    {
      InitialFriendsUnique();
      friends := InitialFriends;
      selected := None;
      showAddFriend := false;
    }

    /** Clicking the select button of `f`, a friend of the list: toggles the
        selection and closes the add-friend panel. */
    method HandleSelection(f: Friend)
      requires Valid()
      requires f in friends
      modifies this
      ensures Valid()
      ensures selected == Toggled(old(selected), f)
      ensures !showAddFriend
      ensures friends == old(friends)
    {
      if selected.Some? && selected.value.id == f.id {
        selected := None;
      } else {
        selected := Some(f);
      }
      showAddFriend := false;
    }

    /** Adding a friend with a fresh identifier at the end of the list, and
        closing the panel. */
    method HandleAddFriend(f: Friend)
      requires Valid()
      requires f.id !in IdsOf(friends)
      modifies this
      ensures Valid()
      ensures friends == Append(old(friends), f)
      ensures !showAddFriend
      ensures selected == old(selected)
    {
      AppendKeepsUnique(friends, f);
      friends := friends + [f];
      showAddFriend := false;
    }

    /** The button that opens and closes the add-friend panel. It leaves the
        selection as it is. */
    method HandleShowAddFriend()
      requires Valid()
      modifies this
      ensures Valid()
      ensures showAddFriend == !old(showAddFriend)
      ensures friends == old(friends) && selected == old(selected)
    {
      showAddFriend := !showAddFriend;
    }

    /** Adding `value` to the balance of the selected friend and clearing the
        selection. The split form is only shown while a friend is selected. */
    method HandleSplitBill(value: int)
      requires Valid()
      requires selected.Some?
      modifies this
      ensures Valid()
      ensures friends == AddToBalance(old(friends), old(selected).value.id, value)
      ensures TotalBalance(friends) == TotalBalance(old(friends)) + value
      ensures selected == None
      ensures showAddFriend == old(showAddFriend)
    {
      AddToBalanceKeepsIds(friends, selected.value.id, value);
      var k :| 0 <= k < |friends| && friends[k] == selected.value;
      assert friends[k].id in IdsOf(friends);
      AddToBalanceTotal(friends, selected.value.id, value);
      friends := AddToBalance(friends, selected.value.id, value);
      selected := None;
    }

    /** Submitting the add-friend form with `id` as the generated identifier,
        which must not be in the list. A rejected submit changes nothing. */
    method SubmitAddFriend(form: AddFriendForm, id: Id)
      requires Valid()
      requires id !in IdsOf(friends)
      modifies this, form
      ensures Valid()
      ensures NewFriend(old(form.name), old(form.image), id).None? ==>
        friends == old(friends) && showAddFriend == old(showAddFriend)
        && form.name == old(form.name) && form.image == old(form.image)
      ensures NewFriend(old(form.name), old(form.image), id).Some? ==>
        friends == Append(old(friends), NewFriend(old(form.name), old(form.image), id).value)
        && !showAddFriend && form.name == [] && form.image == DefaultImage
      ensures selected == old(selected)
    {
      var friend := form.HandleSubmit(id);
      if friend.Some? {
        HandleAddFriend(friend.value);
      }
    }

    /** Submitting the split-bill form shown for the selected friend. A
        rejected submit changes nothing. */
    method SubmitSplitBill(form: SplitBillForm)
      requires Valid()
      requires selected.Some?
      modifies this
      ensures Valid()
      ensures SplitValue(form.bill, form.paidByUser, form.payer).None? ==>
        friends == old(friends) && selected == old(selected)
      ensures SplitValue(form.bill, form.paidByUser, form.payer).Some? ==>
        friends == AddToBalance(old(friends), old(selected).value.id,
                                SplitValue(form.bill, form.paidByUser, form.payer).value)
        && selected == None
      ensures showAddFriend == old(showAddFriend)
    {
      var value := form.HandleSubmit();
      if value.Some? {
        HandleSplitBill(value.value);
      }
    }
  }

  /** In the selected friend's row, a split changes that friend's balance by
      the split value and no other friend at all. */
  lemma {:induction false} SplitChangesOnlySelected(fs: seq<Friend>, k: nat, bill: int, paidByUser: int, payer: Payer)
    requires UniqueIds(fs)
    requires k < |fs|
    requires SplitValue(bill, paidByUser, payer).Some?
    ensures AddToBalance(fs, fs[k].id, SplitValue(bill, paidByUser, payer).value)
         == fs[k := fs[k].(balance := fs[k].balance
                     + (if payer == ByUser then bill - paidByUser else -paidByUser))]
  {
    AddToBalanceOnlyTarget(fs, k, SplitValue(bill, paidByUser, payer).value);
  }

  /** Krish starts at -70; a split of a bill of 100 with an expense of 40 that
      the user paid leaves Krish at -10, the other seed friends as they were;
      adding 20 instead leaves Krish at -50. */
  lemma SeedSplitScenario()
    ensures SplitValue(100, 40, ByUser) == Some(60)
    ensures AddToBalance(InitialFriends, "499476", SplitValue(100, 40, ByUser).value)
         == [InitialFriends[0].(balance := -10), InitialFriends[1], InitialFriends[2]]
    ensures AddToBalance(InitialFriends, "499476", 20)[0].balance == -50
  {
    InitialFriendsUnique();
    AddToBalanceOnlyTarget(InitialFriends, 0, 60);
    AddToBalanceOnlyTarget(InitialFriends, 0, 20);
  }
}
