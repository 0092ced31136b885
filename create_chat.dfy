/** The "create chat" modal: the list of selectable friends, the toggled
    selection, the group switch and name, and `handleCreate`, which makes a
    one-to-one or a group create call and resets the modal after success. The
    service calls are replaced by their outcomes, given as parameters. */
module CreateChat {
  import opened Common

  /** `prev.includes(id) ? prev.filter(x => x !== id) : [...prev, id]`. */
  function Toggle(prev: seq<string>, id: string): (r: seq<string>)
    ensures id in r <==> id !in prev
    ensures forall x :: x != id ==> (x in r <==> x in prev)
    ensures id !in prev ==> r == prev + [id]
  {
    if id in prev then
      var r := Filter(prev, (x: string) => x != id);
      assert forall i :: 0 <= i < |prev| && prev[i] != id ==> prev[i] in r;
      r
    else prev + [id]
  }

  /** Deselecting closes the gap: the ids before and after the removed one
      keep their order, so the first remaining id is the one `CallFor` uses. */
  lemma ToggleOffClosesGap(a: seq<string>, b: seq<string>, id: string)
    requires id !in a && id !in b
    ensures Toggle(a + [id] + b, id) == a + b
  {
    var s := a + [id] + b;
    assert s[|a|] == id;
    assert Toggle(s, id) == Filter(s, (x: string) => x != id);
    DropOne(a, b, id);
  }

  lemma DropOne(a: seq<string>, b: seq<string>, id: string)
    requires id !in a && id !in b
    ensures Filter(a + [id] + b, (x: string) => x != id) == a + b
  {
    var keep := (x: string) => x != id;
    assert Filter(a + [id], keep) == a by {
      FilterConcat(a, [id], keep);
      FilterKeepsAll(a, keep);
      assert Filter([id], keep) == [];
    }
    assert Filter(b, keep) == b by {
      FilterKeepsAll(b, keep);
    }
    FilterConcat(a + [id], b, keep);
  }

  predicate Distinct(s: seq<string>) {
    forall i, j :: 0 <= i < j < |s| ==> s[i] != s[j]
  }

  /** Toggling the same id twice restores the set of selected ids; when the id
      was not selected it restores the selection exactly. */
  lemma ToggleTwice(prev: seq<string>, id: string)
    ensures forall x :: x in Toggle(Toggle(prev, id), id) <==> x in prev
    ensures id !in prev ==> Toggle(Toggle(prev, id), id) == prev
  {
    if id !in prev {
      var once := prev + [id];
      var r := Filter(once, (x: string) => x != id);
      FilterConcat(prev, [id], (x: string) => x != id);
      FilterKeepsAll(prev, (x: string) => x != id);
      assert Filter([id], (x: string) => x != id) == [];
      assert r == prev;
    }
  }

  /** A toggle keeps a duplicate-free selection duplicate-free. */
  lemma ToggleKeepsDistinct(prev: seq<string>, id: string)
    requires Distinct(prev)
    ensures Distinct(Toggle(prev, id))
  {
    if id in prev {
      var p := (x: string) => x != id;
      forall x | true
        ensures multiset(Toggle(prev, id))[x] <= 1
      {
        FilterCount(prev, p, x);
        DistinctCount(prev, x);
      }
      CountDistinct(Toggle(prev, id));
    }
  }

  lemma {:induction false} DistinctCount(s: seq<string>, x: string)
    requires Distinct(s)
    ensures multiset(s)[x] <= 1
  {
    if s != [] {
      var t := s[1..];
      assert s == [s[0]] + t;
      assert Distinct(t);
      DistinctCount(t, x);
      if s[0] == x {
        assert x !in t;
        assert multiset(t)[x] == 0;
      }
    }
  }

  lemma {:induction false} CountDistinct(s: seq<string>)
    requires forall x :: multiset(s)[x] <= 1
    ensures Distinct(s)
  {
    forall i, j | 0 <= i < j < |s|
      ensures s[i] != s[j]
    {
      TwoOccurrences(s, i, j);
    }
  }

  lemma TwoOccurrences(s: seq<string>, i: int, j: int)
    requires 0 <= i < j < |s|
    ensures s[i] == s[j] ==> multiset(s)[s[i]] >= 2
  {
    var front, back := s[..j], s[j..];
    assert s == front + back;
    assert front[i] == s[i] && back[0] == s[j];
    assert multiset(s)[s[i]] == multiset(front)[s[i]] + multiset(back)[s[i]];
  }

  /** The create call `handleCreate` makes. */
  datatype CreateCall = OneToOne(userId: string) | Group(name: string, participantIds: seq<string>)

  /** The call for the current form: a group call with the name and the whole
      selection; in private mode, a call for the first selected id, or none
      without a selection. */
  function CallFor(isGroup: bool, groupName: string, selectedIds: seq<string>): (r: Option<CreateCall>)
    ensures isGroup ==> r == Some(Group(groupName, selectedIds))
    ensures !isGroup ==> (r.None? <==> selectedIds == [])
    ensures !isGroup && selectedIds != [] ==> r == Some(OneToOne(selectedIds[0]))
  {
    if isGroup then Some(Group(groupName, selectedIds))
    else if selectedIds == [] then None
    else Some(OneToOne(selectedIds[0]))
  }

  class CreateChatModal {
    var open: bool
    var friends: seq<string>
    var selectedIds: seq<string>
    var isGroup: bool
    var groupName: string
    /** Successful creates reported through `onChatCreated` and `onClose`. */
    var created: nat

    constructor (open: bool)
      ensures this.open == open && friends == [] && selectedIds == [] && !isGroup && groupName == "" && created == 0
    {
      this.open := open;
      friends, selectedIds, isGroup, groupName, created := [], [], false, "", 0;
    }

    ghost predicate Valid()
      reads this
    {
      Distinct(selectedIds)
    }

    /** The effect on `open`: when the modal is open, the friends fetch (absent
        on failure, which leaves the list) replaces the list, with `[]` for a
        missing `data`. */
    method LoadFriends(res: Option<Option<seq<string>>>)
      modifies this`friends
      ensures friends == if open && res.Some? then res.value.GetOr([]) else old(friends)
    {
      if open && res.Some? {
        friends := res.value.GetOr([]);
      }
    }

    /** `handleSelect`. */
    method HandleSelect(id: string)
      requires Valid()
      modifies this`selectedIds
      ensures Valid()
      ensures selectedIds == Toggle(old(selectedIds), id)
    {
      ToggleKeepsDistinct(selectedIds, id);
      selectedIds := Toggle(selectedIds, id);
    }

    method SetGroup(group: bool)
      modifies this`isGroup
      ensures isGroup == group
    {
      isGroup := group;
    }

    method SetGroupName(name: string)
      modifies this`groupName
      ensures groupName == name
    {
      groupName := name;
    }

    /** `handleCreate`: makes the call for the current form (none in private
        mode without a selection). `succeeded` is whether that call resolved;
        then the creation is reported and the form is reset. A missing or
        failed call leaves the form as it was. */
    method HandleCreate(succeeded: bool) returns (call: Option<CreateCall>)
      requires Valid()
      modifies this`selectedIds, this`groupName, this`isGroup, this`created
      ensures Valid()
      ensures call == CallFor(old(isGroup), old(groupName), old(selectedIds))
      ensures call.Some? && succeeded ==>
        selectedIds == [] && groupName == "" && !isGroup && created == old(created) + 1
      ensures call.None? || !succeeded ==>
        selectedIds == old(selectedIds) && groupName == old(groupName) && isGroup == old(isGroup)
        && created == old(created)
    {
      call := CallFor(isGroup, groupName, selectedIds);
      if call.None? || !succeeded {
        return;
      }
      created := created + 1;
      selectedIds, groupName, isGroup := [], "", false;
    }
  }

  /** In private mode only the first selected friend gets a chat, and an
      empty selection makes no call at all. */
  method PrivateUsesFirst() returns (none: Option<CreateCall>, first: Option<CreateCall>, after: seq<string>)
    ensures none == None && first == Some(OneToOne("a")) && after == []
  {
    var m := new CreateChatModal(true);
    none := m.HandleCreate(true);
    m.HandleSelect("a");
    m.HandleSelect("b");
    first := m.HandleCreate(true);
    after := m.selectedIds;
  }
}
