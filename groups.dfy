/**
 * Favourite groups (`/api/manage/favorites/groups`): listing the groups in
 * index order, creating the default group on first use, and creating a
 * group under a fresh id.
 *
 * A group lives in three places: its record `manage@favorite_groups@<id>`,
 * its id in `manage@favorite_groups@index`, and its favourite list
 * `manage@favorite_files@<id>`.
 */
module Groups {
  import opened Wrappers
  import opened JsString
  import opened Kv

  datatype Response =
    | MethodNotAllowed
    | BadRequest(error: string)
    | Conflict(error: string)
    | GroupList(groups: seq<Group>)
    | GroupCreated(group: Group)
  {
    function Status(): int {
      match this
      case MethodNotAllowed => 405
      case BadRequest(_) => 400
      case Conflict(_) => 409
      case _ => 200
    }
  }

  const DefaultId: string := "default"

  /** `createDefaultGroup`'s record. */
  function DefaultGroup(now: int): (g: Group)
    ensures g.id == DefaultId && g.isDefault && g.fileCount == 0
    ensures g.color == "#67C23A" && g.icon == "star" && g.createdAt == g.updatedAt == now
  {
    Group(DefaultId, "默认收藏夹", "默认的收藏夹分组", "#67C23A", "star", now, now, 0, true)
  }

  predicate HasGroup(m: Store, id: string) {
    GroupOf(m, id).Some?
  }

  /** A group as GET reports it: its record with `fileCount` set to the length of its favourite list. */
  function Listed(m: Store, id: string): (g: Group)
    requires HasGroup(m, id)
    ensures g.fileCount == |GroupFilesOf(m, id)|
    ensures g.(fileCount := GroupOf(m, id).value.fileCount) == GroupOf(m, id).value
  {
    GroupOf(m, id).value.(fileCount := |GroupFilesOf(m, id)|)
  }

  /** The loop of `getFavoriteGroups` over the index ids. */
  function ListGroups(m: Store, ids: seq<string>): (r: seq<Group>)
    ensures |r| <= |ids|
    ensures forall i :: 0 <= i < |ids| && HasGroup(m, ids[i]) ==> Listed(m, ids[i]) in r
    decreases |ids|
  {
    if |ids| == 0 then []
    else
      var n := |ids| - 1;
      var prev := ListGroups(m, ids[..n]);
      assert forall i :: 0 <= i < n ==> ids[..n][i] == ids[i];
      if HasGroup(m, ids[n]) then prev + [Listed(m, ids[n])] else prev
  }

  /** Listing starts with the first index id when that id has a record. */
  lemma {:induction false} ListGroupsFirst(m: Store, ids: seq<string>)
    requires |ids| > 0 && HasGroup(m, ids[0])
    ensures |ListGroups(m, ids)| > 0 && ListGroups(m, ids)[0] == Listed(m, ids[0])
    decreases |ids|
  {
    if |ids| > 1 {
      var n := |ids| - 1;
      assert ids[..n][0] == ids[0];
      ListGroupsFirst(m, ids[..n]);
    }
  }

  /** Every listed group is the record of an index id that has one. */
  lemma {:induction false} ListedComeFromIndex(m: Store, ids: seq<string>, k: nat)
    requires k < |ListGroups(m, ids)|
    ensures exists i :: 0 <= i < |ids| && HasGroup(m, ids[i]) && ListGroups(m, ids)[k] == Listed(m, ids[i])
    decreases |ids|
  {
    var n := |ids| - 1;
    var prev := ListGroups(m, ids[..n]);
    if k < |prev| {
      ListedComeFromIndex(m, ids[..n], k);
      var i :| 0 <= i < |ids[..n]| && HasGroup(m, ids[..n][i]) && prev[k] == Listed(m, ids[..n][i]);
      assert ids[..n][i] == ids[i];
      assert ListGroups(m, ids)[k] == prev[k];
    } else {
      assert HasGroup(m, ids[n]) && ListGroups(m, ids)[k] == Listed(m, ids[n]);
    }
  }

  /** What `getFavoriteGroups` writes when `default` is missing from the index. */
  function WithDefault(m: Store, now: int): (m': Store)
    ensures GroupIndexOf(m') == [DefaultId] + GroupIndexOf(m)
    ensures GroupOf(m', DefaultId) == Some(DefaultGroup(now))
    ensures GroupFilesOf(m', DefaultId) == []
    ensures forall k :: k in m && k != GroupKey(DefaultId) && k != GroupFilesKey(DefaultId) && k != GroupsIndexKey ==>
              k in m' && m'[k] == m[k]
  {
    GroupKeysDistinct(DefaultId, DefaultId, "");
    IndexKeys(DefaultId);
    m[GroupKey(DefaultId) := Record(GroupBlob(DefaultGroup(now)), None)]
     [GroupFilesKey(DefaultId) := Record(GroupFiles([]), None)]
     [GroupsIndexKey := Record(GroupIndex([DefaultId] + GroupIndexOf(m)), None)]
  }

  /** `getFavoriteGroups`: the groups of the index in index order, creating the default group first if needed. */
  method GetFavoriteGroups(kv: KvStore, now: int) returns (resp: Response)
    modifies kv
    ensures DefaultId in GroupIndexOf(kv.entries)
    ensures DefaultId in GroupIndexOf(old(kv.entries)) ==>
              kv.entries == old(kv.entries) && resp == GroupList(ListGroups(kv.entries, GroupIndexOf(kv.entries)))
    ensures DefaultId !in GroupIndexOf(old(kv.entries)) ==>
              kv.entries == WithDefault(old(kv.entries), now)
              && resp == GroupList([DefaultGroup(now)] + ListGroups(kv.entries, GroupIndexOf(kv.entries)))
  {
    var created := false;
    if DefaultId !in GroupIndexOf(kv.entries) {
      StoreDefault(kv, now);
      created := true;
    }
    var listed := ListIndexed(kv);
    resp := GroupList((if created then [DefaultGroup(now)] else []) + listed);
  }

  /** The three writes that put `default` in front of the index. */
  method StoreDefault(kv: KvStore, now: int)
    modifies kv
    ensures kv.entries == WithDefault(old(kv.entries), now)
  {
    GroupKeysDistinct(DefaultId, DefaultId, "");
    IndexKeys(DefaultId);
    var index := GroupIndexOf(kv.entries);
    kv.Put(GroupKey(DefaultId), Record(GroupBlob(DefaultGroup(now)), None));
    kv.Put(GroupFilesKey(DefaultId), Record(GroupFiles([]), None));
    kv.Put(GroupsIndexKey, Record(GroupIndex([DefaultId] + index), None));
  }

  /** The loop over the index: each group that still exists, in index order. */
  method ListIndexed(kv: KvStore) returns (groups: seq<Group>)
    ensures groups == ListGroups(kv.entries, GroupIndexOf(kv.entries))
  {
    var index := GroupIndexOf(kv.entries);
    groups := [];
    var i := 0;
    while i < |index|
      invariant 0 <= i <= |index|
      invariant groups == ListGroups(kv.entries, index[..i])
    {
      assert index[..i + 1][..i] == index[..i];
      if HasGroup(kv.entries, index[i]) {
        groups := groups + [Listed(kv.entries, index[i])];
      }
      i := i + 1;
    }
    assert index[..|index|] == index;
  }

  /**
   * The first GET after `default` went missing from the index reports the
   * default group twice: once as created, once from the index loop.
   */
  lemma DefaultListedTwice(m: Store, now: int)
    requires DefaultId !in GroupIndexOf(m)
    ensures var m' := WithDefault(m, now);
            var groups := [DefaultGroup(now)] + ListGroups(m', GroupIndexOf(m'));
            |groups| >= 2 && groups[0] == groups[1] == DefaultGroup(now)
  {
    var m' := WithDefault(m, now);
    ListGroupsFirst(m', GroupIndexOf(m'));
  }

  /** Creating the default group empties a favourite list left under `default`. */
  lemma DefaultFavoritesReset(m: Store, now: int)
    ensures GroupFilesOf(WithDefault(m, now), DefaultId) == []
  {
  }

  /** The group named `name` when both are lowercased. */
  predicate NameMatches(m: Store, id: string, name: string) {
    HasGroup(m, id) && Lower(GroupOf(m, id).value.name) == Lower(name)
  }

  function FindIn(m: Store, ids: seq<string>, name: string): (r: Option<Group>)
    ensures r.Some? <==> exists i :: 0 <= i < |ids| && NameMatches(m, ids[i], name)
    ensures r.Some? ==> exists i :: 0 <= i < |ids| && NameMatches(m, ids[i], name)
                          && r == GroupOf(m, ids[i])
                          && forall j :: 0 <= j < i ==> !NameMatches(m, ids[j], name)
  {
    var k := FirstMatch(m, ids, name, 0);
    if k < 0 then None
    else
      assert NameMatches(m, ids[k], name);
      GroupOf(m, ids[k])
  }

  /** The first position from `i` on whose entry matches `name`, or -1. */
  function FirstMatch(m: Store, ids: seq<string>, name: string, i: nat): (k: int)
    requires i <= |ids|
    ensures k == -1 || i <= k < |ids|
    ensures k >= 0 ==> NameMatches(m, ids[k], name) && forall j :: i <= j < k ==> !NameMatches(m, ids[j], name)
    ensures k == -1 ==> forall j :: i <= j < |ids| ==> !NameMatches(m, ids[j], name)
    decreases |ids| - i
  {
    if i == |ids| then -1
    else if NameMatches(m, ids[i], name) then i
    else FirstMatch(m, ids, name, i + 1)
  }

  /** `findGroupByName`: the first group of the index whose name equals `name` case-insensitively. */
  function FindGroupByName(m: Store, name: string): Option<Group> {
    FindIn(m, GroupIndexOf(m), name)
  }

  /** The group `createFavoriteGroup` stores. */
  function NewGroup(groupId: string, name: string, description: Option<string>, color: Option<string>,
                    icon: Option<string>, now: int): (g: Group)
    ensures g.id == groupId && g.name == Trim(name) && !g.isDefault && g.fileCount == 0
    ensures g.color == OrText(color, "#67C23A") && g.icon == OrText(icon, "star")
    ensures g.description == TrimmedOrEmpty(description) && g.createdAt == g.updatedAt == now
  {
    Group(groupId, Trim(name), TrimmedOrEmpty(description), OrText(color, "#67C23A"), OrText(icon, "star"),
          now, now, 0, false)
  }

  /** The three keys `createFavoriteGroup` writes. */
  function CreatedKeys(groupId: string): set<string> {
    {GroupKey(groupId), GroupsIndexKey, GroupFilesKey(groupId)}
  }

  /** The store after `createFavoriteGroup` saved `group`. */
  function Created(m: Store, group: Group): (m': Store)
    ensures m'.Keys == m.Keys + CreatedKeys(group.id)
    ensures forall k :: k in m && k !in CreatedKeys(group.id) ==> m'[k] == m[k]
    ensures group.id != "index" ==>
              GroupOf(m', group.id) == Some(group)
              && GroupIndexOf(m') == GroupIndexOf(m) + [group.id]
              && GroupFilesOf(m', group.id) == []
  {
    GroupKeysDistinct(group.id, group.id, "");
    IndexKeys(group.id);
    var m1 := m[GroupKey(group.id) := Record(GroupBlob(group), None)];
    assert group.id != "index" ==> GroupIndexOf(m1) == GroupIndexOf(m);
    m1[GroupsIndexKey := Record(GroupIndex(GroupIndexOf(m1) + [group.id]), None)]
      [GroupFilesKey(group.id) := Record(GroupFiles([]), None)]
  }

  /** `createFavoriteGroup`. */
  method CreateFavoriteGroup(kv: KvStore, name: Option<string>, description: Option<string>,
                             color: Option<string>, icon: Option<string>, groupId: string, now: int)
    returns (resp: Response)
    modifies kv
    ensures !Truthy(name) ==> resp == BadRequest("Name is required")
    ensures Truthy(name) && FindGroupByName(old(kv.entries), name.value).Some? ==>
              resp == Conflict("Group name already exists")
    ensures Truthy(name) && FindGroupByName(old(kv.entries), name.value).None? ==>
              resp == GroupCreated(NewGroup(groupId, name.value, description, color, icon, now))
    ensures !resp.GroupCreated? ==> kv.entries == old(kv.entries)
    ensures resp.GroupCreated? ==> kv.entries == Created(old(kv.entries), resp.group)
  {
    if !Truthy(name) {
      return BadRequest("Name is required");
    }
    var existing := FindGroupByName(kv.entries, name.value);
    if existing.Some? {
      return Conflict("Group name already exists");
    }
    var group := NewGroup(groupId, name.value, description, color, icon, now);
    kv.Put(GroupKey(groupId), Record(GroupBlob(group), None));
    var index := GroupIndexOf(kv.entries);
    kv.Put(GroupsIndexKey, Record(GroupIndex(index + [groupId]), None));
    kv.Put(GroupFilesKey(groupId), Record(GroupFiles([]), None));
    resp := GroupCreated(group);
  }

  /** `onRequest` of `/api/manage/favorites/groups`: GET lists, POST creates, anything else is refused. */
  method OnRequest(kv: KvStore, httpMethod: string, name: Option<string>, description: Option<string>,
                   color: Option<string>, icon: Option<string>, groupId: string, now: int)
    returns (resp: Response)
    modifies kv
    ensures httpMethod != "GET" && httpMethod != "POST" ==> resp == MethodNotAllowed && kv.entries == old(kv.entries)
    ensures httpMethod == "GET" ==> DefaultId in GroupIndexOf(kv.entries)
    ensures resp.BadRequest? || resp.Conflict? ==> kv.entries == old(kv.entries)
    ensures httpMethod == "GET" && DefaultId in GroupIndexOf(old(kv.entries)) ==>
              kv.entries == old(kv.entries) && resp == GroupList(ListGroups(kv.entries, GroupIndexOf(kv.entries)))
    ensures httpMethod == "GET" && DefaultId !in GroupIndexOf(old(kv.entries)) ==>
              kv.entries == WithDefault(old(kv.entries), now)
              && resp == GroupList([DefaultGroup(now)] + ListGroups(kv.entries, GroupIndexOf(kv.entries)))
    ensures httpMethod == "POST" && Truthy(name) && FindGroupByName(old(kv.entries), name.value).None? ==>
              resp == GroupCreated(NewGroup(groupId, name.value, description, color, icon, now))
              && kv.entries == Created(old(kv.entries), resp.group)
    ensures httpMethod == "POST" && !Truthy(name) ==> resp == BadRequest("Name is required")
    ensures httpMethod == "POST" && Truthy(name) && FindGroupByName(old(kv.entries), name.value).Some? ==>
              resp == Conflict("Group name already exists")
  {
    if httpMethod == "GET" {
      resp := GetFavoriteGroups(kv, now);
    } else if httpMethod == "POST" {
      resp := CreateFavoriteGroup(kv, name, description, color, icon, groupId, now);
    } else {
      resp := MethodNotAllowed;
    }
  }
}
