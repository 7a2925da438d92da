/**
 * Name tags on cloud resources (xdrive/aws.py, "manage tags").
 * A resource's tags are the provider's list of Key/Value pairs, or None when
 * the resource has never been tagged.
 */
module Tags {
  import opened Wrappers

  datatype Tag = Tag(key: string, value: string)

  type TagList = Option<seq<Tag>>

  const NameKey: string := "Name"

  /** The tag pairs of a tag list; None has none. */
  function Pairs(tags: TagList): seq<Tag> {
    tags.GetOr([])
  }

  /** Every key that occurs in a list of pairs. */
  function KeysOf(ts: seq<Tag>): set<string> {
    set i | 0 <= i < |ts| :: ts[i].key
  }

  /** `i` is the last position of `ts` carrying its key. */
  ghost predicate LastWithKey(ts: seq<Tag>, i: int) {
    0 <= i < |ts| && forall j :: i < j < |ts| ==> ts[j].key != ts[i].key
  }

  /**
   * The dictionary the get_tags comprehension builds from a list of pairs,
   * filled in list order, so that a later pair for a key overrides an earlier one.
   */
  function TagMap(ts: seq<Tag>): map<string, string> {
    if ts == [] then map[]
    else TagMap(ts[..|ts| - 1])[ts[|ts| - 1].key := ts[|ts| - 1].value]
  }

  /** The dictionary has exactly the keys of the list. */
  lemma {:induction false} TagMapKeys(ts: seq<Tag>)
    ensures TagMap(ts).Keys == KeysOf(ts)
  {
    if ts != [] {
      var init := ts[..|ts| - 1];
      var last := ts[|ts| - 1];
      TagMapKeys(init);
      assert KeysOf(ts) == KeysOf(init) + {last.key} by {
        assert forall i :: 0 <= i < |init| ==> init[i] == ts[i];
      }
    }
  }

  /** The value the dictionary holds for a key is the one of its last pair. */
  lemma {:induction false} TagMapLast(ts: seq<Tag>, i: int)
    requires LastWithKey(ts, i)
    ensures ts[i].key in TagMap(ts) && TagMap(ts)[ts[i].key] == ts[i].value
  {
    var init := ts[..|ts| - 1];
    if i < |ts| - 1 {
      assert LastWithKey(init, i);
      TagMapLast(init, i);
    }
  }

  lemma TagMapLastAll(ts: seq<Tag>)
    ensures forall i :: LastWithKey(ts, i) ==> ts[i].key in TagMap(ts) && TagMap(ts)[ts[i].key] == ts[i].value
  {
    forall i | LastWithKey(ts, i) {
      TagMapLast(ts, i);
    }
  }

  /**
   * get_tags: the Key/Value list as a dictionary; `res.tags or dict()` makes
   * an untagged resource give the empty dictionary.
   */
  function GetTags(tags: TagList): (m: map<string, string>)
    ensures tags.None? ==> m == map[]
  {
    TagMap(Pairs(tags))
  }

  /**
   * The dictionary get_tags builds holds exactly the keys of the pairs, and
   * for each key the value of its last pair.
   */
  lemma GetTagsOfPairs(tags: TagList)
    ensures GetTags(tags).Keys == KeysOf(Pairs(tags))
    ensures forall i :: LastWithKey(Pairs(tags), i) ==>
      Pairs(tags)[i].key in GetTags(tags) && GetTags(tags)[Pairs(tags)[i].key] == Pairs(tags)[i].value
  {
    TagMapKeys(Pairs(tags));
    TagMapLastAll(Pairs(tags));
  }

  /** get_tag: the value of the `key` tag, or "" when the resource has no such tag. */
  function GetTag(tags: TagList, key: string): string {
    var m := GetTags(tags);
    if key in m then m[key] else ""
  }

  /** get_tag gives "" for a key no pair carries, and otherwise the value of the key's last pair. */
  lemma GetTagOfPairs(tags: TagList, key: string)
    ensures key !in KeysOf(Pairs(tags)) ==> GetTag(tags, key) == ""
    ensures forall i :: LastWithKey(Pairs(tags), i) && Pairs(tags)[i].key == key ==>
      GetTag(tags, key) == Pairs(tags)[i].value
  {
    GetTagsOfPairs(tags);
  }

  /** get_name: get_tag with the "Name" key. */
  function GetName(tags: TagList): string {
    GetTag(tags, NameKey)
  }

  /** An unnamed resource has the name ""; otherwise its name is the value of its last "Name" pair. */
  lemma GetNameOfPairs(tags: TagList)
    ensures NameKey !in KeysOf(Pairs(tags)) ==> GetName(tags) == ""
    ensures forall i :: LastWithKey(Pairs(tags), i) && Pairs(tags)[i].key == NameKey ==>
      GetName(tags) == Pairs(tags)[i].value
  {
    GetTagOfPairs(tags, NameKey);
  }

  /** The pairs without any pair for `key`, order kept. */
  function WithoutKey(ts: seq<Tag>, key: string): seq<Tag> {
    if ts == [] then []
    else if ts[0].key == key then WithoutKey(ts[1..], key)
    else [ts[0]] + WithoutKey(ts[1..], key)
  }

  /**
   * The provider's create_tags for one pair, which set_tag issues: the
   * resource ends with exactly one `key` pair, holding `value`, after its
   * other pairs.
   */
  function WithTag(tags: TagList, key: string, value: string): TagList {
    Some(WithoutKey(Pairs(tags), key) + [Tag(key, value)])
  }

  lemma {:induction false} WithoutKeyAppend(ts: seq<Tag>, t: Tag, key: string)
    ensures WithoutKey(ts + [t], key) == WithoutKey(ts, key) + (if t.key == key then [] else [t])
  {
    if ts == [] {
      assert [t][1..] == [];
    } else {
      assert (ts + [t])[1..] == ts[1..] + [t];
      WithoutKeyAppend(ts[1..], t, key);
    }
  }

  /** Dropping the pairs of `key` removes `key` from the dictionary and nothing else. */
  lemma {:induction false} WithoutKeyMap(ts: seq<Tag>, key: string)
    ensures TagMap(WithoutKey(ts, key)) == TagMap(ts) - {key}
  {
    if ts != [] {
      var init := ts[..|ts| - 1];
      var last := ts[|ts| - 1];
      assert ts == init + [last];
      WithoutKeyAppend(init, last, key);
      WithoutKeyMap(init, key);
      var w := WithoutKey(init, key);
      var m0 := TagMap(init);
      assert TagMap(ts) == m0[last.key := last.value];
      if last.key == key {
        assert WithoutKey(ts, key) == w;
        MapUpdateRemove(m0, key, last.value, key);
      } else {
        assert WithoutKey(ts, key) == w + [last];
        assert (w + [last])[..|w + [last]| - 1] == w;
        assert TagMap(w + [last]) == (m0 - {key})[last.key := last.value];
        MapUpdateRemove(m0, last.key, last.value, key);
      }
    }
  }

  lemma MapUpdateRemove(m: map<string, string>, k: string, v: string, r: string)
    ensures k == r ==> m[k := v] - {r} == m - {r}
    ensures k != r ==> m[k := v] - {r} == (m - {r})[k := v]
  {
  }

  /**
   * set_tag(r, k, v) then get_tags(r): `k` now maps to `v` and every other
   * tag is unchanged.
   */
  lemma SetTagThenGetTags(tags: TagList, key: string, value: string)
    ensures GetTags(WithTag(tags, key, value)) == GetTags(tags)[key := value]
  {
    var w := WithoutKey(Pairs(tags), key);
    WithoutKeyMap(Pairs(tags), key);
    var r := w + [Tag(key, value)];
    assert r[..|r| - 1] == w;
  }

  /** set_name(r, v) then get_name(r) gives `v`; every other tag keeps its value. */
  lemma SetNameThenGetName(tags: TagList, v: string)
    ensures GetName(WithTag(tags, NameKey, v)) == v
    ensures forall k :: k != NameKey ==> GetTag(WithTag(tags, NameKey, v), k) == GetTag(tags, k)
  {
    SetTagThenGetTags(tags, NameKey, v);
  }
}
