/**
  The friend store of the split-bill app: the friend record, the two list
  transformations the app applies to its friend list (append, and adding a
  signed amount to the balance of the friend with a given id), the seed list,
  and the three-way classification of a balance that each friend row shows.
*/
module Friends {

  /** Friend identifiers. Generated identifiers are UUID strings; the seed
      identifiers are written as their decimal text. */
  type Id = string

  /** A friend and the running balance between the user and that friend:
      negative means the user owes the friend, positive means the friend owes
      the user, zero means they are even. */
  datatype Friend = Friend(id: Id, name: string, image: string, balance: int)

  /** The identifiers of all friends in the list. */
  function IdsOf(fs: seq<Friend>): set<Id> {
    set i | 0 <= i < |fs| :: fs[i].id
  }

  /** No two friends in the list share an identifier. */
  predicate UniqueIds(fs: seq<Friend>) {
    forall i, j :: 0 <= i < j < |fs| ==> fs[i].id != fs[j].id
  }

  /** The image template used by the seed list and by the add-friend form. */
  const AvatarBase: string := "https://i.pravatar.cc/48?u="

  /** The friends the app starts with. */
  const InitialFriends: seq<Friend> := [
    Friend("499476", "Krish", AvatarBase + "499476", -70),
    Friend("9177529", "Aadya", AvatarBase + "9177529", 0),
    Friend("6195371", "Shivani", AvatarBase + "6195371", 120)
  ]

  lemma InitialFriendsUnique()
    ensures UniqueIds(InitialFriends)
    ensures IdsOf(InitialFriends) == {"499476", "9177529", "6195371"}
  {
    assert InitialFriends[0].id == "499476";
    assert InitialFriends[1].id == "9177529";
    assert InitialFriends[2].id == "6195371";
  }

  // ---------------------------------------------------------------------
  // Append: `[...friends, friend]`
  // ---------------------------------------------------------------------

  /** The list with `f` added at the end. */
  function Append(fs: seq<Friend>, f: Friend): (r: seq<Friend>)
    ensures |r| == |fs| + 1
    ensures r[..|fs|] == fs
    ensures r[|fs|] == f
    ensures IdsOf(r) == IdsOf(fs) + {f.id}
  {
    var r := fs + [f];
    assert forall x :: x in IdsOf(r) ==> x in IdsOf(fs) + {f.id} by {
      forall x | x in IdsOf(r) ensures x in IdsOf(fs) + {f.id} {
        var i :| 0 <= i < |r| && r[i].id == x;
        if i < |fs| { assert fs[i].id == x; }
      }
    }
    assert forall x :: x in IdsOf(fs) + {f.id} ==> x in IdsOf(r) by {
      forall x | x in IdsOf(fs) + {f.id} ensures x in IdsOf(r) {
        if x == f.id {
          assert r[|fs|].id == x;
        } else {
          var i :| 0 <= i < |fs| && fs[i].id == x;
          assert r[i].id == x;
        }
      }
    }
    r
  }

  /** Appending a friend with a fresh identifier keeps identifiers unique. */
  lemma {:induction false} AppendKeepsUnique(fs: seq<Friend>, f: Friend)
    requires UniqueIds(fs)
    requires f.id !in IdsOf(fs)
    ensures UniqueIds(Append(fs, f))
  {
    var r := Append(fs, f);
    forall i, j | 0 <= i < j < |r| ensures r[i].id != r[j].id {
      if j == |fs| {
        assert r[i] == fs[i];
        assert fs[i].id in IdsOf(fs);
      } else {
        assert r[i] == fs[i] && r[j] == fs[j];
      }
    }
  }

  // ---------------------------------------------------------------------
  // Balance update by id: every friend is mapped to itself, except that a
  // friend with the given id gets the value added to its balance
  // ---------------------------------------------------------------------

  /** One step of the map: the friend itself, or the friend with `value` added
      to its balance when its id is `id`. */
  function Adjusted(f: Friend, id: Id, value: int): Friend {
    if f.id == id then f.(balance := f.balance + value) else f
  }

  /** The list in which every friend whose id is `id` has `value` added to its
      balance; every field other than a matching friend's balance, the length
      and the order stay as they were. */
  function AddToBalance(fs: seq<Friend>, id: Id, value: int): (r: seq<Friend>)
    ensures |r| == |fs|
    ensures forall i :: 0 <= i < |fs| ==>
      r[i].id == fs[i].id && r[i].name == fs[i].name && r[i].image == fs[i].image
    ensures forall i :: 0 <= i < |fs| ==>
      r[i].balance == if fs[i].id == id then fs[i].balance + value else fs[i].balance
  {
    if fs == [] then [] else [Adjusted(fs[0], id, value)] + AddToBalance(fs[1..], id, value)
  }

  /** With unique identifiers, adding to the balance of the friend at index `k`
      is the single-element update of that friend: nothing else changes. */
  lemma {:induction false} AddToBalanceOnlyTarget(fs: seq<Friend>, k: nat, value: int)
    requires UniqueIds(fs)
    requires k < |fs|
    ensures AddToBalance(fs, fs[k].id, value) == fs[k := fs[k].(balance := fs[k].balance + value)]
  {
  }

  /** An amount of zero leaves the list identical. */
  lemma {:induction false} AddToBalanceZero(fs: seq<Friend>, id: Id)
    ensures AddToBalance(fs, id, 0) == fs
  {
  }

  /** An identifier that is not in the list leaves the list identical. */
  lemma {:induction false} AddToBalanceAbsent(fs: seq<Friend>, id: Id, value: int)
    requires id !in IdsOf(fs)
    ensures AddToBalance(fs, id, value) == fs
  {
    var r := AddToBalance(fs, id, value);
    forall i | 0 <= i < |fs| ensures r[i] == fs[i] {
      assert fs[i].id in IdsOf(fs);
    }
  }

  /** The update keeps the set of identifiers, and with it their uniqueness. */
  lemma {:induction false} AddToBalanceKeepsIds(fs: seq<Friend>, id: Id, value: int)
    ensures IdsOf(AddToBalance(fs, id, value)) == IdsOf(fs)
    ensures UniqueIds(fs) ==> UniqueIds(AddToBalance(fs, id, value))
  {
    var r := AddToBalance(fs, id, value);
    forall x | x in IdsOf(r) ensures x in IdsOf(fs) {
      var i :| 0 <= i < |r| && r[i].id == x;
      assert fs[i].id == x;
    }
    forall x | x in IdsOf(fs) ensures x in IdsOf(r) {
      var i :| 0 <= i < |fs| && fs[i].id == x;
      assert r[i].id == x;
    }
  }

  /** Two updates of the same friend add up: splitting twice with `a` and then
      `b` is the same as splitting once with `a + b`. */
  lemma {:induction false} AddToBalanceAdditive(fs: seq<Friend>, id: Id, a: int, b: int)
    ensures AddToBalance(AddToBalance(fs, id, a), id, b) == AddToBalance(fs, id, a + b)
  {
  }

  /** The sum of all balances in the list. */
  function TotalBalance(fs: seq<Friend>): int {
    if fs == [] then 0 else fs[0].balance + TotalBalance(fs[1..])
  }

  /** The ids of a non-empty list are the first friend's id and the ids of the rest. */
  lemma IdsOfCons(fs: seq<Friend>)
    requires fs != []
    ensures IdsOf(fs) == {fs[0].id} + IdsOf(fs[1..])
  {
    forall x | x in IdsOf(fs) ensures x in {fs[0].id} + IdsOf(fs[1..]) {
      var i :| 0 <= i < |fs| && fs[i].id == x;
      if i > 0 { assert fs[1..][i - 1].id == x; }
    }
    forall x | x in IdsOf(fs[1..]) ensures x in IdsOf(fs) {
      var i :| 0 <= i < |fs[1..]| && fs[1..][i].id == x;
      assert fs[i + 1].id == x;
    }
  }

  /** With unique ids, a balance update moves the total of all balances by
      exactly `value` when the id is in the list, and not at all otherwise. */
  lemma {:induction false} AddToBalanceTotal(fs: seq<Friend>, id: Id, value: int)
    requires UniqueIds(fs)
    ensures TotalBalance(AddToBalance(fs, id, value))
         == TotalBalance(fs) + (if id in IdsOf(fs) then value else 0)
  {
    if fs != [] {
      var rest := fs[1..];
      assert UniqueIds(rest) by {
        forall i, j | 0 <= i < j < |rest| ensures rest[i].id != rest[j].id {
          assert rest[i] == fs[i + 1] && rest[j] == fs[j + 1];
        }
      }
      AddToBalanceTotal(rest, id, value);
      IdsOfCons(fs);
      var r := AddToBalance(fs, id, value);
      assert r[1..] == AddToBalance(rest, id, value);
      if fs[0].id == id {
        forall i | 0 <= i < |rest| ensures rest[i].id != id {
          assert rest[i] == fs[i + 1];
        }
      }
    }
  }

  // ---------------------------------------------------------------------
  // Balance classification shown in each friend row
  // ---------------------------------------------------------------------

  /** The three messages a friend row can show. */
  datatype Standing = YouOwe | OwesYou | Even

  /** The messages a friend row shows, in order: each of the three is guarded
      by its own independent comparison of the balance with zero. Exactly one
      is shown, and which one is decided by the sign of the balance. */
  function Standings(balance: int): (r: seq<Standing>)
    ensures |r| == 1
    ensures r[0] == YouOwe <==> balance < 0
    ensures r[0] == OwesYou <==> balance > 0
    ensures r[0] == Even <==> balance == 0
  {
    (if balance < 0 then [YouOwe] else [])
    + (if balance > 0 then [OwesYou] else [])
    + (if balance == 0 then [Even] else [])
  }
}
