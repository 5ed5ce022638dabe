/**
 * Tag management (`/api/manage/tags`): listing the tags in index order and
 * creating a tag under a fresh id.
 *
 * A tag lives in three places: its record `manage@tags@<id>`, its id in
 * the list `manage@tags@index`, and the list of its files
 * `manage@tag_files@<id>`.
 */
module Tags {
  import opened Wrappers
  import opened JsString
  import opened Kv
  import opened Seqs

  datatype Response =
    | MethodNotAllowed
    | BadRequest(error: string)
    | Conflict(error: string)
    | TagList(tags: seq<Tag>)
    | TagCreated(tag: Tag)
  {
    function Status(): int {
      match this
      case MethodNotAllowed => 405
      case BadRequest(_) => 400
      case Conflict(_) => 409
      case _ => 200
    }
  }

  predicate HasTag(m: Store, id: string) {
    TagOf(m, id).Some?
  }

  /** A tag as GET reports it: its record with `fileCount` set to the length of its file list. */
  function Listed(m: Store, id: string): Tag
    requires HasTag(m, id)
  {
    TagOf(m, id).value.(fileCount := |TagFilesOf(m, id)|)
  }

  /** The loop of `getTags` over the index ids. */
  function ListTags(m: Store, ids: seq<string>): (r: seq<Tag>)
    ensures |r| <= |ids|
    ensures forall i :: 0 <= i < |ids| && HasTag(m, ids[i]) ==> Listed(m, ids[i]) in r
    decreases |ids|
  {
    if |ids| == 0 then []
    else
      var n := |ids| - 1;
      var prev := ListTags(m, ids[..n]);
      assert forall i :: 0 <= i < n ==> ids[..n][i] == ids[i];
      if HasTag(m, ids[n]) then prev + [Listed(m, ids[n])] else prev
  }

  /** Every listed tag is the record of an index id that has one. */
  lemma {:induction false} ListedComeFromIndex(m: Store, ids: seq<string>, k: nat)
    requires k < |ListTags(m, ids)|
    ensures exists i :: 0 <= i < |ids| && HasTag(m, ids[i]) && ListTags(m, ids)[k] == Listed(m, ids[i])
    decreases |ids|
  {
    var n := |ids| - 1;
    var prev := ListTags(m, ids[..n]);
    if k < |prev| {
      ListedComeFromIndex(m, ids[..n], k);
      var i :| 0 <= i < |ids[..n]| && HasTag(m, ids[..n][i]) && prev[k] == Listed(m, ids[..n][i]);
      assert ids[..n][i] == ids[i];
      assert ListTags(m, ids)[k] == prev[k];
    } else {
      assert HasTag(m, ids[n]) && ListTags(m, ids)[k] == Listed(m, ids[n]);
    }
  }

  /** Whether an id has a tag record: the `if (tagStr)` test of `getTags`. */
  function HasTagIn(m: Store): string -> bool {
    id => HasTag(m, id)
  }

  /**
   * The listed tags are, position by position, the records of the index ids
   * that have one, in index order: a missing record is skipped and nothing
   * is reordered.
   */
  lemma {:induction false} ListTagsInIndexOrder(m: Store, ids: seq<string>)
    ensures var present := Filter(ids, HasTagIn(m));
            && |ListTags(m, ids)| == |present|
            && forall k :: 0 <= k < |present| ==> HasTag(m, present[k]) && ListTags(m, ids)[k] == Listed(m, present[k])
    decreases |ids|
  {
    if |ids| > 0 {
      var n := |ids| - 1;
      ListTagsInIndexOrder(m, ids[..n]);
      assert ids == ids[..n] + [ids[n]];
    }
  }

  /** `getTags`: the tags of the index, in index order. */
  function GetTags(m: Store): (r: Response)
    ensures r.TagList? && |r.tags| <= |TagIndexOf(m)|
    ensures r.TagList? && r.tags == ListTags(m, TagIndexOf(m))
  {
    TagList(ListTags(m, TagIndexOf(m)))
  }

  /** The tag stored under `id` has `name` when both are lowercased. */
  predicate NameMatches(m: Store, id: string, name: string) {
    HasTag(m, id) && Lower(TagOf(m, id).value.name) == Lower(name)
  }

  function FindIn(m: Store, ids: seq<string>, name: string): (r: Option<Tag>)
    ensures r.Some? <==> exists i :: 0 <= i < |ids| && NameMatches(m, ids[i], name)
    ensures r.Some? ==> exists i :: 0 <= i < |ids| && NameMatches(m, ids[i], name)
                          && r == TagOf(m, ids[i])
                          && forall j :: 0 <= j < i ==> !NameMatches(m, ids[j], name)
  {
    var k := FirstMatch(m, ids, name, 0);
    if k < 0 then None
    else
      assert NameMatches(m, ids[k], name);
      TagOf(m, ids[k])
  }

  /** The first position from `i` on whose entry matches `name`, or -1. */
  function FirstMatch(m: Store, ids: seq<string>, name: string, i: nat): (k: int)
    requires i <= |ids|
    ensures k == -1 || i <= k < |ids|
    ensures k >= 0 ==> NameMatches(m, ids[k], name) && forall j :: i <= j < k ==> !NameMatches(m, ids[j], name)
    ensures k == -1 ==> forall j :: i <= j < |ids| ==> !NameMatches(m, ids[j], name)
    decreases |ids| - i
  {
    if i == |ids| then -1
    else if NameMatches(m, ids[i], name) then i
    else FirstMatch(m, ids, name, i + 1)
  }

  /** `findTagByName`: the first tag of the index whose name equals `name` case-insensitively. */
  function FindTagByName(m: Store, name: string): Option<Tag> {
    FindIn(m, TagIndexOf(m), name)
  }

  /** The three keys `createTag` writes. */
  function CreatedKeys(tagId: string): set<string> {
    {TagKey(tagId), TagsIndexKey, TagFilesKey(tagId)}
  }

  /** `createTag`. */
  method CreateTag(kv: KvStore, name: Option<string>, color: Option<string>, description: Option<string>,
                   tagId: string, now: int) returns (resp: Response)
    modifies kv
    ensures !Truthy(name) || !Truthy(color) ==> resp == BadRequest("Name and color are required")
    ensures Truthy(name) && Truthy(color) && FindTagByName(old(kv.entries), name.value).Some? ==>
              resp == Conflict("Tag name already exists")
    ensures Truthy(name) && Truthy(color) && FindTagByName(old(kv.entries), name.value).None? ==>
              resp == TagCreated(Tag(tagId, Trim(name.value), color.value, TrimmedOrEmpty(description), now, now, 0))
    ensures !resp.TagCreated? ==> kv.entries == old(kv.entries)
    ensures resp.TagCreated? ==> kv.entries == WithTag(old(kv.entries), resp.tag)
    ensures resp.TagCreated? ==> kv.entries.Keys == old(kv.entries).Keys + CreatedKeys(tagId)
    ensures resp.TagCreated? ==> forall k :: k in old(kv.entries) && k !in CreatedKeys(tagId) ==>
              kv.entries[k] == old(kv.entries)[k]
    ensures resp.TagCreated? && tagId != "index" ==>
              TagOf(kv.entries, tagId) == Some(resp.tag)
              && TagIndexOf(kv.entries) == TagIndexOf(old(kv.entries)) + [tagId]
              && TagFilesOf(kv.entries, tagId) == []
  {
    if !Truthy(name) || !Truthy(color) {
      return BadRequest("Name and color are required");
    }
    var existing := FindTagByName(kv.entries, name.value);
    if existing.Some? {
      return Conflict("Tag name already exists");
    }
    var tag := Tag(tagId, Trim(name.value), color.value, TrimmedOrEmpty(description), now, now, 0);
    WithTagFacts(kv.entries, tag);
    StoreTag(kv, tag);
    resp := TagCreated(tag);
  }

  /** The three writes of `createTag`; the index is read after the tag's own key is written. */
  function WithTag(m: Store, tag: Tag): Store {
    var m1 := m[TagKey(tag.id) := Record(TagBlob(tag), None)];
    m1[TagsIndexKey := Record(TagIndex(TagIndexOf(m1) + [tag.id]), None)]
      [TagFilesKey(tag.id) := Record(TagFiles([]), None)]
  }

  /** Storing a tag adds exactly its three keys; unless its id is `index`, the tag, its list and the index read back. */
  lemma WithTagFacts(m: Store, tag: Tag)
    ensures WithTag(m, tag).Keys == m.Keys + CreatedKeys(tag.id)
    ensures forall k :: k in m && k !in CreatedKeys(tag.id) ==> WithTag(m, tag)[k] == m[k]
    ensures tag.id != "index" ==>
              && TagOf(WithTag(m, tag), tag.id) == Some(tag)
              && TagIndexOf(WithTag(m, tag)) == TagIndexOf(m) + [tag.id]
              && TagFilesOf(WithTag(m, tag), tag.id) == []
  {
    TagKeysDistinct(tag.id, tag.id, "");
    IndexKeys(tag.id);
  }

  method StoreTag(kv: KvStore, tag: Tag)
    modifies kv
    ensures kv.entries == WithTag(old(kv.entries), tag)
  {
    kv.Put(TagKey(tag.id), Record(TagBlob(tag), None));
    var index := TagIndexOf(kv.entries);
    kv.Put(TagsIndexKey, Record(TagIndex(index + [tag.id]), None));
    kv.Put(TagFilesKey(tag.id), Record(TagFiles([]), None));
  }

  /** `onRequest` of `/api/manage/tags`: GET lists, POST creates, anything else is refused. */
  method OnRequest(kv: KvStore, httpMethod: string, name: Option<string>, color: Option<string>,
                   description: Option<string>, tagId: string, now: int) returns (resp: Response)
    modifies kv
    ensures httpMethod != "GET" && httpMethod != "POST" ==> resp == MethodNotAllowed
    ensures httpMethod == "GET" ==> resp == GetTags(old(kv.entries))
    ensures httpMethod != "POST" ==> kv.entries == old(kv.entries)
    ensures resp.Status() == 409 ==> kv.entries == old(kv.entries)
    ensures httpMethod == "POST" && (!Truthy(name) || !Truthy(color)) ==>
              resp == BadRequest("Name and color are required") && kv.entries == old(kv.entries)
    ensures httpMethod == "POST" && Truthy(name) && Truthy(color) && FindTagByName(old(kv.entries), name.value).None? ==>
              resp == TagCreated(Tag(tagId, Trim(name.value), color.value, TrimmedOrEmpty(description), now, now, 0))
              && kv.entries == WithTag(old(kv.entries), resp.tag)
    ensures httpMethod == "POST" && Truthy(name) && Truthy(color) && FindTagByName(old(kv.entries), name.value).Some? ==>
              resp == Conflict("Tag name already exists") && kv.entries == old(kv.entries)
  {
    if httpMethod == "GET" {
      resp := GetTags(kv.entries);
    } else if httpMethod == "POST" {
      resp := CreateTag(kv, name, color, description, tagId, now);
    } else {
      resp := MethodNotAllowed;
    }
  }

  /**
   * The uniqueness check compares the untrimmed input while the stored name
   * is trimmed: with a tag named "a" in the index, " a" passes the check and
   * is stored as "a", a second tag of the same name.
   */
  lemma UntrimmedNameSlipsThrough()
    ensures var m := map[TagsIndexKey := Record(TagIndex(["t1"]), None),
                         TagKey("t1") := Record(TagBlob(Tag("t1", "a", "#409EFF", "", 0, 0, 0)), None)];
            FindTagByName(m, " a").None? && Trim(" a") == TagOf(m, "t1").value.name
  {
    var tag := Tag("t1", "a", "#409EFF", "", 0, 0, 0);
    var m := map[TagsIndexKey := Record(TagIndex(["t1"]), None),
                 TagKey("t1") := Record(TagBlob(tag), None)];
    assert TagKey("t1") != TagsIndexKey by {
      assert TagKey("t1")[12] == 't' && TagsIndexKey[12] == 'i';
    }
    assert TagIndexOf(m) == ["t1"];
    assert TagOf(m, "t1") == Some(tag);
    SpacedNameDiffers();
    assert !NameMatches(m, "t1", " a");
  }

  /** `" a"` and `"a"` differ once lower-cased, yet trim to the same name. */
  lemma SpacedNameDiffers()
    ensures Lower("a") != Lower(" a") && Trim(" a") == "a"
  {
    assert |Lower(" a")| == 2 && |Lower("a")| == 1;
    assert TrimStart(" a") == "a" by {
      assert IsTrimmable(' ') && !IsTrimmable('a');
      assert " a"[1..] == "a";
    }
  }
}
