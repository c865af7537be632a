/**
  The two forms of the split-bill app. Each is an object whose fields are the
  form's input state; its handlers update those fields, and its submit handler
  produces what the form hands to the app (a new friend, or the signed amount
  to add to the selected friend's balance) or nothing when its guard rejects
  the input. Numeric inputs are integers in which 0 stands for an empty field:
  the source treats the empty string and 0 alike in every use.
*/
module Forms {

  import opened Wrappers
  import opened Friends

  // ---------------------------------------------------------------------
  // Add-friend form
  // ---------------------------------------------------------------------

  /** The image template the add-friend form starts with and resets to. */
  const DefaultImage: string := AvatarBase

  /** The friend a submit of the add-friend form builds from the entered name,
      the entered image template and the generated identifier, or nothing when
      the name or the template is empty. A built friend starts even, and its
      image is the template followed by the identifier. */
  function NewFriend(name: string, template: string, id: Id): (r: Option<Friend>)
    ensures r.None? <==> name == [] || template == []
    ensures r.Some? ==> r.value.id == id && r.value.name == name && r.value.balance == 0
    ensures r.Some? ==> |r.value.image| == |template| + |id|
    ensures r.Some? ==> r.value.image[..|template|] == template && r.value.image[|template|..] == id
  {
    if name == [] || template == [] then None
    else Some(Friend(id, name, template + id, 0))
  }

  class AddFriendForm {
    var name: string
    var image: string

    constructor ()
      ensures name == [] && image == DefaultImage
    {
      name := [];
      image := DefaultImage;
    }

    /** Typing in the name field. */
    method SetName(s: string)
      modifies this
      ensures name == s && image == old(image)
    {
      name := s;
    }

    /** Typing in the image field. */
    method SetImage(s: string)
      modifies this
      ensures image == s && name == old(name)
    {
      image := s;
    }

    /** Submitting the form with `id` as the generated identifier. On success
        the fields return to their defaults; on a rejected submit nothing
        changes. */
    method HandleSubmit(id: Id) returns (friend: Option<Friend>)
      modifies this
      ensures friend == NewFriend(old(name), old(image), id)
      ensures friend.Some? ==> name == [] && image == DefaultImage
      ensures friend.None? ==> name == old(name) && image == old(image)
    {
      if name == [] || image == [] {
        return None;
      }
      friend := Some(Friend(id, name, image + id, 0));
      image := DefaultImage;
      name := [];
    }
  }

  // ---------------------------------------------------------------------
  // Split-bill form
  // ---------------------------------------------------------------------

  /** Who paid the bill. */
  datatype Payer = ByUser | ByFriend

  /** The friend's share: unset while the bill is empty, otherwise what is
      left of the bill after the user's expense, so the two shares add up to
      the bill. */
  function PaidByFriend(bill: int, paidByUser: int): (r: Option<int>)
    ensures r.None? <==> bill == 0
    ensures r.Some? ==> r.value + paidByUser == bill
  {
    if bill != 0 then Some(bill - paidByUser) else None
  }

  /** The user's expense after an edit that enters `entered`: an entry above
      the bill is refused and the previous expense stays. So an expense that
      did not exceed the bill still does not after the edit. */
  function EditedExpense(previous: int, entered: int, bill: int): (r: int)
    ensures r == entered || r == previous
    ensures r == entered <==> entered <= bill || entered == previous
    ensures previous <= bill ==> r <= bill
  {
    if entered > bill then previous else entered
  }

  /** The signed amount a submit of the split-bill form adds to the selected
      friend's balance, or nothing when the bill or the user's expense is
      empty (or zero). When the user paid, the friend owes the friend's share;
      when the friend paid, the user owes the user's expense. */
  function SplitValue(bill: int, paidByUser: int, payer: Payer): (r: Option<int>)
    ensures r.None? <==> bill == 0 || paidByUser == 0
    ensures r.Some? && payer == ByUser ==> PaidByFriend(bill, paidByUser) == r
    ensures r.Some? && payer == ByFriend ==> r.value + paidByUser == 0
  {
    if bill == 0 || paidByUser == 0 then None
    else if payer == ByUser then PaidByFriend(bill, paidByUser)
    else Some(-paidByUser)
  }

  class SplitBillForm {
    var bill: int
    var paidByUser: int
    var payer: Payer

    /** A fresh form: both amounts empty, the user paying. */
    constructor ()
      ensures bill == 0 && paidByUser == 0 && payer == ByUser
    {
      bill, paidByUser, payer := 0, 0, ByUser;
    }

    /** Typing in the bill field. Lowering the bill does not revisit the
        user's expense. */
    method SetBill(entered: int)
      modifies this
      ensures bill == entered && paidByUser == old(paidByUser) && payer == old(payer)
    {
      bill := entered;
    }

    /** Typing in the user's expense field, refused when above the bill. */
    method SetPaidByUser(entered: int)
      modifies this
      ensures paidByUser == EditedExpense(old(paidByUser), entered, old(bill))
      ensures bill == old(bill) && payer == old(payer)
    {
      paidByUser := if entered > bill then paidByUser else entered;
    }

    /** Choosing who pays. */
    method SetWhoIsPaying(p: Payer)
      modifies this
      ensures payer == p && bill == old(bill) && paidByUser == old(paidByUser)
    {
      payer := p;
    }

    /** Submitting the form: the amount handed to the app, or nothing when
        the guard rejects the input. The form itself is left as it is. */
    method HandleSubmit() returns (value: Option<int>)
      ensures value == SplitValue(bill, paidByUser, payer)
      ensures value.None? <==> bill == 0 || paidByUser == 0
      ensures value.Some? && payer == ByUser ==> value.value == bill - paidByUser
      ensures value.Some? && payer == ByFriend ==> value.value == -paidByUser
    {
      if bill == 0 || paidByUser == 0 {
        return None;
      }
      value := if payer == ByUser then PaidByFriend(bill, paidByUser) else Some(-paidByUser);
    }
  }

  /** An expense entered above the bill is refused (bill 100, entry 150). */
  lemma ExpenseAboveBillRefused(previous: int)
    ensures EditedExpense(previous, 150, 100) == previous
  {
  }

  /** Lowering the bill after the expense was entered leaves an expense above
      the bill: the bound is kept by the expense edit alone. */
  method LowerBillAfterExpense() returns (form: SplitBillForm)
    ensures form.bill == 30 && form.paidByUser == 40
  {
    form := new SplitBillForm();
    form.SetBill(100);
    form.SetPaidByUser(40);
    form.SetBill(30);
  }

  /** Bill 100 and an expense of 40: the friend's share is 60; a split paid by
      the user moves the friend's balance by 60, one paid by the friend by -40. */
  lemma SplitScenarios()
    ensures PaidByFriend(100, 40) == Some(60)
    ensures SplitValue(100, 40, ByUser) == Some(60)
    ensures SplitValue(100, 40, ByFriend) == Some(-40)
  {
  }
}
