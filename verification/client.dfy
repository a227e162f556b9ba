/** The client account of models/client.go and its list of project ids,
    which the client's methods keep free of duplicates. */
module ClientModel {

  const ClientStatusActive := "active"
  const ClientStatusSuspended := "suspended"
  const ClientStatusInactive := "inactive"
  const ClientStatusDeleted := "deleted"

  predicate NoDuplicates(ids: seq<string>)
  {
    forall i, j :: 0 <= i < j < |ids| ==> ids[i] != ids[j]
  }

  /** Position of the first occurrence of `x`. */
  function FirstIndexOf(ids: seq<string>, x: string): (k: nat)
    requires x in ids
    ensures k < |ids| && ids[k] == x && x !in ids[..k]
  {
    if ids[0] == x then 0
    else
      var k := FirstIndexOf(ids[1..], x);
      assert ids[..k + 1] == [ids[0]] + ids[1..][..k];
      k + 1
  }

  /** The list with its first `x` cut out, the rest in order. */
  function WithoutFirst(ids: seq<string>, x: string): (r: seq<string>)
  {
    if x !in ids then ids
    else
      var k := FirstIndexOf(ids, x);
      ids[..k] + ids[k + 1..]
  }

  /** Removing takes away exactly one `x` when there is one, and nothing
      else. */
  lemma WithoutFirstMultiset(ids: seq<string>, x: string)
    ensures x in ids ==> multiset(WithoutFirst(ids, x)) == multiset(ids) - multiset{x}
    ensures x !in ids ==> WithoutFirst(ids, x) == ids
  {
    if x in ids {
      var k := FirstIndexOf(ids, x);
      assert ids == ids[..k] + [x] + ids[k + 1..];
      assert multiset(ids) == multiset(ids[..k]) + multiset{x} + multiset(ids[k + 1..]);
    }
  }

  /** Where each remaining entry came from. */
  lemma WithoutFirstAt(ids: seq<string>, x: string, i: int)
    requires x in ids && 0 <= i < |WithoutFirst(ids, x)|
    ensures var k := FirstIndexOf(ids, x);
      WithoutFirst(ids, x)[i] == if i < k then ids[i] else ids[i + 1]
  {
  }

  /** On a list without duplicates, removing `x` removes it entirely and
      keeps the list free of duplicates. */
  lemma WithoutFirstNoDuplicates(ids: seq<string>, x: string)
    requires NoDuplicates(ids)
    ensures NoDuplicates(WithoutFirst(ids, x))
    ensures x !in WithoutFirst(ids, x)
  {
    if x in ids {
      var k := FirstIndexOf(ids, x);
      var r := WithoutFirst(ids, x);
      forall i, j | 0 <= i < j < |r| ensures r[i] != r[j] {
        WithoutFirstAt(ids, x, i);
        WithoutFirstAt(ids, x, j);
      }
      forall m | 0 <= m < |r| ensures r[m] != x {
        WithoutFirstAt(ids, x, m);
      }
    }
  }

  /** Adding an id that is not in the list and removing it again gives
      back the list. */
  lemma AddThenRemove(ids: seq<string>, x: string)
    requires x !in ids
    ensures WithoutFirst(ids + [x], x) == ids
  {
    var k := FirstIndexOf(ids + [x], x);
    assert k >= |ids| by {
      assert forall j :: 0 <= j < |ids| ==> (ids + [x])[j] == ids[j];
    }
    assert (ids + [x])[..|ids|] == ids;
  }

  /** A `*Client`. `now` stands for `time.Now()`. */
  class Client {
    var ClientID: string
    var Email: string
    var Name: string
    var Status: string
    var IsActive: bool
    var ProjectIDs: seq<string>
    var TotalProjects: int
    var TotalTokensUsed: int
    var UpdatedAt: int

    constructor (clientID: string, email: string, name: string, now: int)
      ensures ClientID == clientID && Email == email && Name == name
      ensures Status == ClientStatusActive && IsActive
      ensures ProjectIDs == [] && TotalProjects == 0 && TotalTokensUsed == 0 && UpdatedAt == now
    {
      ClientID := clientID;
      Email := email;
      Name := name;
      Status := ClientStatusActive;
      IsActive := true;
      ProjectIDs := [];
      TotalProjects := 0;
      TotalTokensUsed := 0;
      UpdatedAt := now;
    }

    /** The invariant `AddProject` and `RemoveProject` keep. */
    predicate Valid()
      reads this
    {
      NoDuplicates(ProjectIDs) && TotalProjects == |ProjectIDs|
    }

    /** `IsValid`: the required fields are present. */
    predicate IsValid()
      reads this
    {
      Name != "" && Email != "" && ClientID != ""
    }

    /** `GetDisplayName`: the name, or the email when the name is empty. */
    function GetDisplayName(): (r: string)
      reads this
      ensures Name != "" ==> r == Name
      ensures Name == "" ==> r == Email
      ensures IsValid() ==> r == Name && r != ""
    {
      if Name != "" then Name else Email
    }

    /** `IsActiveStatus`. */
    predicate IsActiveStatus()
      reads this
    {
      Status == ClientStatusActive && IsActive
    }

    /** `AddProject`: the search for the id; only a new id is appended,
        and only then are the count and the time refreshed. */
    method AddProject(projectID: string, now: int)
      modifies this
      ensures projectID in old(ProjectIDs) ==>
        ProjectIDs == old(ProjectIDs) && TotalProjects == old(TotalProjects) && UpdatedAt == old(UpdatedAt)
      ensures projectID !in old(ProjectIDs) ==>
        ProjectIDs == old(ProjectIDs) + [projectID] && TotalProjects == |ProjectIDs| && UpdatedAt == now
      ensures projectID in ProjectIDs
      ensures old(Valid()) ==> Valid()
      ensures ClientID == old(ClientID) && Email == old(Email) && Name == old(Name) && Status == old(Status)
      ensures IsActive == old(IsActive) && TotalTokensUsed == old(TotalTokensUsed)
    {
      var i := 0;
      while i < |ProjectIDs|
        invariant 0 <= i <= |ProjectIDs|
        invariant projectID !in ProjectIDs[..i]
      {
        if ProjectIDs[i] == projectID {
          return;
        }
        i := i + 1;
      }
      assert ProjectIDs[..i] == ProjectIDs;
      ProjectIDs := ProjectIDs + [projectID];
      TotalProjects := |ProjectIDs|;
      UpdatedAt := now;
    }

    /** `RemoveProject`: the first occurrence goes; the count and the time
        are refreshed either way. */
    method RemoveProject(projectID: string, now: int)
      modifies this
      ensures ProjectIDs == WithoutFirst(old(ProjectIDs), projectID)
      ensures TotalProjects == |ProjectIDs| && UpdatedAt == now
      ensures old(Valid()) ==> Valid() && projectID !in ProjectIDs
      ensures ClientID == old(ClientID) && Email == old(Email) && Name == old(Name) && Status == old(Status)
      ensures IsActive == old(IsActive) && TotalTokensUsed == old(TotalTokensUsed)
    {
      var ids := ProjectIDs;
      var i := 0;
      while i < |ids|
        invariant 0 <= i <= |ids|
        invariant projectID !in ids[..i]
      {
        if ids[i] == projectID {
          assert FirstIndexOf(ids, projectID) == i by {
            var k := FirstIndexOf(ids, projectID);
            assert k >= i by {
              assert forall j :: 0 <= j < i ==> ids[..i][j] == ids[j];
            }
            assert k <= i by {
              assert forall j :: 0 <= j < k ==> ids[..k][j] == ids[j];
            }
          }
          ProjectIDs := ids[..i] + ids[i + 1..];
          break;
        }
        i := i + 1;
      }
      if i == |ids| {
        assert ids[..i] == ids;
      }
      TotalProjects := |ProjectIDs|;
      UpdatedAt := now;
      if NoDuplicates(ids) {
        WithoutFirstNoDuplicates(ids, projectID);
      }
    }

    /** `UpdateTokenUsage`, token part. */
    method UpdateTokenUsage(tokensUsed: int, now: int)
      modifies this
      ensures TotalTokensUsed == old(TotalTokensUsed) + tokensUsed && UpdatedAt == now
      ensures ProjectIDs == old(ProjectIDs) && TotalProjects == old(TotalProjects)
      ensures ClientID == old(ClientID) && Email == old(Email) && Name == old(Name) && Status == old(Status)
      ensures IsActive == old(IsActive)
    {
      TotalTokensUsed := TotalTokensUsed + tokensUsed;
      UpdatedAt := now;
    }
  }
}
