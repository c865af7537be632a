# Split-Bill: a verified model of the bill-splitting state machine

The app keeps a list of friends, each with a running balance against the user
(negative: the user owes the friend; positive: the friend owes the user; zero:
even). The user can open a panel to add a friend, select a friend, and split a
bill with the selected friend, which adds a signed amount to that friend's
balance. This project models that logic from `src/App.js` without its
rendering:

- `friends.dfy` (module `Friends`): the friend record, the seed list, the two
  list transformations the app applies (append, and add-to-balance by id, which
  is the source's `map`), and the three-way balance message of a friend row.
- `forms.dfy` (module `Forms`): the add-friend form and the split-bill form as
  classes whose fields are the form inputs. Pure functions give what a submit
  produces (`NewFriend`, `SplitValue`), the derived friend's share
  (`PaidByFriend`) and the expense edit with its refusal of entries above the
  bill (`EditedExpense`).
- `app.dfy` (module `AppState`): the app as a class with the fields `friends`,
  `selected` and `showAddFriend` and one method per handler, plus the wiring of
  each form's submit to the app handler it calls back.
- `wrappers.dfy` (module `Wrappers`): `Option`, which stands for `null` and for
  a form submit that does nothing.

Modelling choices:

- Amounts are `int`. The source never divides or rounds.
- Form amounts are integers in which 0 stands for an empty field. The source
  starts both fields at `""`, and `""` behaves like 0 in every use: in the
  friend's share, in the submit guard and in the comparison that refuses an
  expense above the bill. A consequence is that an expense of 0 is rejected
  by the submit guard, like an empty one.
- The friend's share is `None` while the bill is empty or zero, as the source
  shows an empty field then.
- Identifiers are strings. The generated UUIDs are strings, and the seed
  identifiers are written as their decimal text.
- The identifier generator becomes a parameter of `AddFriendForm.HandleSubmit`
  and of `App.SubmitAddFriend`. The latter requires that the identifier is not
  already in the list, which is what a UUID generator provides.
- The selection holds the friend record that was clicked, as the source does.
  It is compared with other friends by id only.
- `App.Valid()` keeps two facts: identifiers are unique, and a selected friend
  is a record of the list. `HandleSelection` requires its friend to be in the
  list, since the only caller is the list's own row button.
  `HandleSplitBill` requires a selection, since the split form is only shown
  while a friend is selected.

## Behaviour of the code worth knowing

- Clicking the same friend twice restores the selection only from no
  selection or from that same friend. From another friend's selection, the
  two clicks leave nothing selected (`ToggledTwice`, `ToggledTwiceForgetsOther`).
- Opening or closing the add-friend panel keeps the selection
  (`App.HandleShowAddFriend`).
- The user's expense stays at most the bill only when the expense is edited.
  Lowering the bill afterwards can leave the expense above it
  (`LowerBillAfterExpense`).

## Model

| member | source | states |
|---|---|---|
| `Friends.InitialFriendsUnique` | src/App.js:3-22 | the seed list has three distinct identifiers |
| `Friends.Append` | src/App.js:45 | the new list is one longer, starts with the old list unchanged and in order, ends with the new friend, and its ids are the old ids plus the new one |
| `Friends.AppendKeepsUnique` | src/App.js:44-47 | appending a friend whose id is fresh keeps ids unique |
| `Friends.AddToBalance` | src/App.js:54-60 | same length and order; every friend keeps its id, name and image; a friend whose id matches has `value` added to its balance, every other friend keeps its balance |
| `Friends.AddToBalanceOnlyTarget` | src/App.js:55-58 | with unique ids, the update is exactly the single-element update of the matching friend's balance: nothing else in the list changes |
| `Friends.AddToBalanceZero` | src/App.js:55-58 | adding 0 leaves the list identical |
| `Friends.AddToBalanceAbsent` | src/App.js:54-59 | an id not in the list leaves the list identical |
| `Friends.AddToBalanceKeepsIds` | src/App.js:55-58 | the update keeps the set of ids and their uniqueness |
| `Friends.AddToBalanceAdditive` | src/App.js:54-60 | two updates of the same id with `a` then `b` equal one update with `a + b` |
| `Friends.AddToBalanceTotal` | src/App.js:54-60 | with unique ids, the total of all balances moves by exactly the added value when the id is in the list, and not at all otherwise |
| `Friends.Standings` | src/App.js:112-124 | each row shows exactly one message: "you owe" iff the balance is negative, "owes you" iff positive, "even" iff zero |
| `Forms.NewFriend` | src/App.js:142-152 | no friend iff the name or the image template is empty; otherwise the friend has the generated id, the entered name, balance 0, and an image made of the template followed by the id |
| `Forms.AddFriendForm.constructor` | src/App.js:134-137 | the form starts with an empty name and the default image template |
| `Forms.AddFriendForm.SetName` | src/App.js:167 | typing sets the name and leaves the template |
| `Forms.AddFriendForm.SetImage` | src/App.js:174 | typing sets the template and leaves the name |
| `Forms.AddFriendForm.HandleSubmit` | src/App.js:139-159 | returns the friend `NewFriend` builds; after a successful submit the name is empty and the template is the default; a rejected submit changes nothing |
| `Forms.PaidByFriend` | src/App.js:185 | unset iff the bill is empty; otherwise the friend's share and the user's expense add up to the bill |
| `Forms.EditedExpense` | src/App.js:213-217 | the expense becomes the entry when it does not exceed the bill and stays at its previous value otherwise; an expense within the bill stays within it |
| `Forms.SplitValue` | src/App.js:191-193 | nothing iff the bill or the user's expense is empty or zero; when the user pays, the value is the friend's share; when the friend pays, it is minus the user's expense |
| `Forms.SplitBillForm.constructor` | src/App.js:183-186 | both amounts start empty and the user pays |
| `Forms.SplitBillForm.SetBill` | src/App.js:206 | typing sets the bill and leaves the expense and the payer |
| `Forms.SplitBillForm.SetPaidByUser` | src/App.js:213-217 | the expense follows `EditedExpense`; bill and payer unchanged |
| `Forms.SplitBillForm.SetWhoIsPaying` | src/App.js:226 | choosing sets the payer and leaves both amounts |
| `Forms.SplitBillForm.HandleSubmit` | src/App.js:188-196 | the submitted value is nothing iff the bill or the expense is empty or zero; otherwise bill minus expense when the user pays and minus the expense when the friend pays |
| `Forms.ExpenseAboveBillRefused` | src/App.js:215 | with bill 100, entering an expense of 150 keeps the previous expense |
| `Forms.LowerBillAfterExpense` | src/App.js:203-217 | bill 100, expense 40, then bill 30 leaves the expense at 40, above the bill |
| `Forms.SplitScenarios` | src/App.js:185-193 | bill 100 and expense 40: the friend's share is 60, the user-paid value is 60, the friend-paid value is -40 |
| `AppState.Toggled` | src/App.js:38-39 | nothing is selected afterwards iff the selected friend had the clicked friend's id; otherwise the clicked friend is selected |
| `AppState.ToggledTwice` | src/App.js:37-42 | two clicks on the same friend end with it selected iff it was selected at the start, and with nothing selected otherwise |
| `AppState.ToggledTwiceFromNone` | src/App.js:37-42 | from no selection, two clicks on the same friend return to no selection |
| `AppState.ToggledTwiceForgetsOther` | src/App.js:37-42 | from another friend's selection, two clicks on a friend leave nothing selected |
| `AppState.App.constructor` | src/App.js:33-35 | the app starts with the seed list, nothing selected and the panel closed |
| `AppState.App.HandleSelection` | src/App.js:37-42 | the selection becomes `Toggled` of the old one, the panel is closed, the list is unchanged |
| `AppState.App.HandleAddFriend` | src/App.js:44-47 | the list becomes `Append` of the old list, the panel is closed, the selection is unchanged, ids stay unique |
| `AppState.App.HandleShowAddFriend` | src/App.js:49-51 | the panel flag flips; the list and the selection are unchanged |
| `AppState.App.HandleSplitBill` | src/App.js:53-63 | the list becomes `AddToBalance` of the old list for the selected id, so the total of all balances moves by exactly the value; the selection is cleared, the panel flag is unchanged |
| `AppState.App.SubmitAddFriend` | src/App.js:139-159 | a rejected submit changes neither the list nor the form nor the panel; an accepted one appends the built friend, closes the panel and resets the form |
| `AppState.App.SubmitSplitBill` | src/App.js:188-196 | a rejected submit changes nothing; an accepted one adds the split value to the selected friend's balance and clears the selection |
| `AppState.SplitChangesOnlySelected` | src/App.js:53-63 | with unique ids, a split changes only the selected friend, whose balance moves by bill minus expense when the user pays and by minus the expense when the friend pays |
| `AppState.SeedSplitScenario` | src/App.js:53-63 | on the seed list, the user-paid split of a bill of 100 with an expense of 40 moves Krish's balance from -70 to -10 and leaves the other two friends unchanged; adding 20 instead gives -50 |

## Left out

- Rendering: the JSX, `Button`, `FriendsList`, class names, labels and displayed strings, including the `Math.abs` formatting of balances. These are presentation.
- `crypto.randomUUID()`: a foreign source of randomness. The identifier is a parameter, required to be fresh.
- `Number(...)` parsing of typed text and JavaScript coercions (`NaN`, `""` compared with numbers). Inputs are integers with 0 for an empty field.
- Floating-point amounts. The model uses `int`.
- React state batching and the functional updater timing of `setFriends`. Each handler is one atomic state change.
- The `selected` flag of a friend row (the row's highlight and its "Close"/"Select" label). It is presentation; the same id comparison is modelled in `Toggled`.
- Unmounting of the forms. When the split form is hidden and shown again, React gives it fresh state; the model leaves creating a new form object to the caller.
