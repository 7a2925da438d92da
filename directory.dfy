/**
 * The name-tag resource directory of xdrive/aws.py: `get` looks resources up
 * by their Name tag across collections and applies one cardinality rule;
 * `set_tag` and `set_name` tag a live resource.
 */
module Directory {
  import opened Wrappers
  import opened Tags
  import opened Cloud

  /** The `collections` argument: None, a single collection, or a list of them. */
  datatype CollectionsArg = AllCollections | Single(c: Collection) | ListOf(cs: seq<Collection>)

  /** The collections a lookup searches, in order. */
  function Searched(arg: CollectionsArg): seq<Collection> {
    match arg
    case AllCollections => [Instances, Volumes, Snapshots]
    case Single(c) => [c]
    case ListOf(cs) => cs
  }

  /** A resource matches `name` when no name is asked for or its Name tag is that name. */
  predicate Matches(r: Resource, name: Option<string>) {
    name.None? || name.value == NameOf(r)
  }

  /** The `[res for res in owned if ...]` filter, in collection order. */
  function Matching(rs: seq<Resource>, name: Option<string>): (ms: seq<Resource>)
    ensures |ms| <= |rs|
    ensures forall r :: r in ms <==> r in rs && Matches(r, name)
    ensures name.None? ==> ms == rs
  {
    if rs == [] then []
    else if Matches(rs[0], name) then [rs[0]] + Matching(rs[1..], name)
    else Matching(rs[1..], name)
  }

  /** `reslist` after the loop over `cs`: the matches of each collection, one collection after another. */
  function Gather(w: World, cs: seq<Collection>, name: Option<string>): (g: seq<Resource>)
    reads w
  {
    if cs == [] then []
    else Gather(w, cs[..|cs| - 1], name) + Matching(w.Listing(cs[|cs| - 1]), name)
  }

  /** The lookup finds exactly the matching resources of the searched collections. */
  lemma {:induction false} GatherMembers(w: World, cs: seq<Collection>, name: Option<string>)
    ensures forall r :: r in Gather(w, cs, name) <==> exists k :: 0 <= k < |cs| && r in w.Listing(cs[k]) && Matches(r, name)
  {
    if cs != [] {
      var init := cs[..|cs| - 1];
      var last := cs[|cs| - 1];
      GatherMembers(w, init, name);
      forall r ensures r in Gather(w, cs, name) <==> exists k :: 0 <= k < |cs| && r in w.Listing(cs[k]) && Matches(r, name) {
        if r in Gather(w, init, name) {
          var k :| 0 <= k < |init| && r in w.Listing(init[k]) && Matches(r, name);
          assert init[k] == cs[k];
        } else if r in Matching(w.Listing(last), name) {
          assert r in w.Listing(cs[|cs| - 1]);
        } else {
          forall k | 0 <= k < |cs| && r in w.Listing(cs[k]) ensures !Matches(r, name) {
            if k < |init| {
              assert init[k] == cs[k];
            }
          }
        }
      }
    }
  }

  /** What `get` returns: None, the single resource, or the list of matches. */
  datatype Found = NoMatch | Sole(res: Resource) | Every(rs: seq<Resource>)

  /**
   * get(name, collections, unique). With no match the answer is None for
   * both settings of `unique`; with `unique` it is the sole match, or an
   * error once two or more resources match; without `unique` it is every
   * match in collection order.
   */
  method Get(w: World, name: Option<string>, arg: CollectionsArg, unique: bool) returns (r: Result<Found, Error>)
    ensures Gather(w, Searched(arg), name) == [] ==> r == Ok(NoMatch)
    ensures unique && |Gather(w, Searched(arg), name)| == 1 ==> r == Ok(Sole(Gather(w, Searched(arg), name)[0]))
    ensures unique && |Gather(w, Searched(arg), name)| >= 2 ==> r == Err(MoreThanOne(Gather(w, Searched(arg), name)))
    ensures !unique && Gather(w, Searched(arg), name) != [] ==> r == Ok(Every(Gather(w, Searched(arg), name)))
  {
    var collections := Searched(arg);
    var reslist: seq<Resource> := [];
    var k := 0;
    while k < |collections|
      invariant 0 <= k <= |collections|
      invariant reslist == Gather(w, collections[..k], name)
    {
      assert collections[..k + 1][..k] == collections[..k];
      reslist := reslist + Matching(w.Listing(collections[k]), name);
      k := k + 1;
    }
    assert collections[..k] == collections;
    if |reslist| == 0 {
      return Ok(NoMatch);
    }
    if unique {
      if |reslist| == 1 {
        return Ok(Sole(reslist[0]));
      }
      return Err(MoreThanOne(reslist));
    }
    return Ok(Every(reslist));
  }

  /** The collection a resource of each kind lives in. */
  function CollectionOf(r: Resource): Collection {
    match r
    case Instance(_, _, _, _, _) => Instances
    case Volume(_, _, _, _, _, _) => Volumes
    case Snapshot(_, _, _, _, _) => Snapshots
  }

  /** set_tag(res, key, value): create_tags on the resource's own collection. */
  method SetTag(w: World, res: Resource, key: string, value: string)
    requires w.Valid()
    modifies w
    ensures w.Valid()
    ensures w.instances == if res.Instance? then Retagged(old(w.instances), res.id, key, value) else old(w.instances)
    ensures w.volumes == if res.Volume? then Retagged(old(w.volumes), res.id, key, value) else old(w.volumes)
    ensures w.snapshots == if res.Snapshot? then Retagged(old(w.snapshots), res.id, key, value) else old(w.snapshots)
    ensures w.nextId == old(w.nextId) && w.clock == old(w.clock) && w.host == old(w.host)
    ensures w.trace == old(w.trace) + [TagsCreated(res.id, key, value)]
  {
    w.CreateTags(CollectionOf(res), res.id, key, value);
  }

  /** set_name(res, value): set_tag with the "Name" key. */
  method SetName(w: World, res: Resource, value: string)
    requires w.Valid()
    modifies w
    ensures w.Valid()
    ensures w.instances == if res.Instance? then Retagged(old(w.instances), res.id, NameKey, value) else old(w.instances)
    ensures w.volumes == if res.Volume? then Retagged(old(w.volumes), res.id, NameKey, value) else old(w.volumes)
    ensures w.snapshots == if res.Snapshot? then Retagged(old(w.snapshots), res.id, NameKey, value) else old(w.snapshots)
    ensures w.nextId == old(w.nextId) && w.clock == old(w.clock) && w.host == old(w.host)
    ensures w.trace == old(w.trace) + [TagsCreated(res.id, NameKey, value)]
  {
    SetTag(w, res, NameKey, value);
  }

  // ----- the naming invariant -----

  /** No two entries of a table carry the Name `n`. */
  ghost predicate AtMostOneNamed(rs: seq<Resource>, n: string) {
    forall i, j :: 0 <= i < |rs| && 0 <= j < |rs| && NameOf(rs[i]) == n && NameOf(rs[j]) == n ==> i == j
  }

  /**
   * The central property: a unique lookup of `n` in a table can succeed
   * exactly when at most one entry carries that name; a second one makes
   * every unique lookup of `n` an error.
   */
  lemma {:induction false} AtMostOneIffLookupUnique(rs: seq<Resource>, n: string)
    ensures AtMostOneNamed(rs, n) <==> |Matching(rs, Some(n))| <= 1
  {
    if rs != [] {
      var rest := rs[1..];
      assert forall i :: 0 <= i < |rest| ==> rest[i] == rs[i + 1];
      AtMostOneIffLookupUnique(rest, n);
      if NameOf(rs[0]) == n {
        if AtMostOneNamed(rs, n) {
          forall i | 0 <= i < |rest| ensures NameOf(rest[i]) != n {
            assert NameOf(rs[i + 1]) == NameOf(rest[i]);
          }
          assert Matching(rest, Some(n)) == [] by {
            NoneNamed(rest, n);
          }
        } else {
          var i, j :| 0 <= i < |rs| && 0 <= j < |rs| && NameOf(rs[i]) == n && NameOf(rs[j]) == n && i != j;
          var m := if i == 0 then j else i;
          assert rest[m - 1] in Matching(rest, Some(n));
        }
      } else {
        AtMostOneNamedTail(rs, n);
      }
    }
  }

  lemma AtMostOneNamedTail(rs: seq<Resource>, n: string)
    requires rs != [] && NameOf(rs[0]) != n
    ensures AtMostOneNamed(rs, n) <==> AtMostOneNamed(rs[1..], n)
  {
    var rest := rs[1..];
    assert forall i :: 0 <= i < |rest| ==> rest[i] == rs[i + 1];
    if AtMostOneNamed(rest, n) {
      forall i, j | 0 <= i < |rs| && 0 <= j < |rs| && NameOf(rs[i]) == n && NameOf(rs[j]) == n ensures i == j {
        assert NameOf(rest[i - 1]) == n && NameOf(rest[j - 1]) == n;
      }
    }
  }

  /** A unique lookup among volumes fails as soon as two volumes carry the name. */
  lemma TwoNamedVolumesBreakLookup(w: World, n: string)
    requires !AtMostOneNamed(w.volumes, n)
    ensures |Gather(w, Searched(Single(Volumes)), Some(n))| >= 2
  {
    AtMostOneIffLookupUnique(w.volumes, n);
    assert Searched(Single(Volumes))[..0] == [];
  }

  /** A lookup in one collection is the filter of that collection. */
  lemma GatherSingle(w: World, c: Collection, name: Option<string>)
    ensures Gather(w, Searched(Single(c)), name) == Matching(w.Listing(c), name)
  {
    assert Searched(Single(c))[..0] == [];
  }

  /** collections=None searches instances, then volumes, then snapshots. */
  lemma GatherDefault(w: World, name: Option<string>)
    ensures Gather(w, Searched(AllCollections), name) ==
      Matching(w.instances, name) + Matching(w.volumes, name) + Matching(w.snapshots, name)
  {
    var cs := Searched(AllCollections);
    assert cs[..2] == [Instances, Volumes];
    assert cs[..2][..1] == [Instances];
    assert [Instances][..0] == [];
    assert Gather(w, [Instances], name) == Matching(w.instances, name);
    assert Gather(w, [Instances, Volumes], name) == Matching(w.instances, name) + Matching(w.volumes, name);
  }

  /** name=None matches every resource of the searched collections. */
  lemma GatherEverything(w: World, cs: seq<Collection>)
    ensures forall r :: r in Gather(w, cs, None) <==> exists k :: 0 <= k < |cs| && r in w.Listing(cs[k])
  {
    GatherMembers(w, cs, None);
  }

  // ----- the naming invariant under table updates -----

  lemma MatchingAppend(rs: seq<Resource>, x: Resource, name: Option<string>)
    ensures Matching(rs + [x], name) == Matching(rs, name) + (if Matches(x, name) then [x] else [])
  {
    if rs != [] {
      assert (rs + [x])[1..] == rs[1..] + [x];
      MatchingAppend(rs[1..], x, name);
    }
  }

  /** Entries keep their names index by index, so the matches keep their count. */
  lemma {:induction false} MatchingSameNames(rs: seq<Resource>, ws: seq<Resource>, name: Option<string>)
    requires |rs| == |ws| && forall i :: 0 <= i < |rs| ==> NameOf(ws[i]) == NameOf(rs[i])
    ensures |Matching(ws, name)| == |Matching(rs, name)|
  {
    if rs != [] {
      assert forall i :: 0 <= i < |rs| - 1 ==> rs[1..][i] == rs[i + 1] && ws[1..][i] == ws[i + 1];
      MatchingSameNames(rs[1..], ws[1..], name);
    }
  }

  /** An update that keeps every entry's name keeps the naming invariant, both ways. */
  lemma AtMostOneSameNames(rs: seq<Resource>, ws: seq<Resource>, n: string)
    requires |rs| == |ws| && forall i :: 0 <= i < |rs| ==> NameOf(ws[i]) == NameOf(rs[i])
    ensures AtMostOneNamed(rs, n) <==> AtMostOneNamed(ws, n)
  {
    MatchingSameNames(rs, ws, Some(n));
    AtMostOneIffLookupUnique(rs, n);
    AtMostOneIffLookupUnique(ws, n);
  }

  /** Retagging something that is not in the table leaves the table as it is. */
  lemma RetaggedAbsent(rs: seq<Resource>, id: Id, key: string, value: string)
    requires forall i :: 0 <= i < |rs| ==> rs[i].id != id
    ensures Retagged(rs, id, key, value) == rs
  {
  }

  /** Naming a fresh last entry `n` where no entry had that name leaves exactly that entry named `n`. */
  lemma NameFreshEntry(rs: seq<Resource>, v: Resource, n: string)
    requires forall i :: 0 <= i < |rs| ==> rs[i].id != v.id
    requires Matching(rs, Some(n)) == []
    ensures Retagged(rs + [v], v.id, NameKey, n) == rs + [Tagged(v, NameKey, n)]
    ensures Matching(Retagged(rs + [v], v.id, NameKey, n), Some(n)) == [Tagged(v, NameKey, n)]
    ensures AtMostOneNamed(Retagged(rs + [v], v.id, NameKey, n), n)
  {
    var v' := Tagged(v, NameKey, n);
    var t := Retagged(rs + [v], v.id, NameKey, n);
    assert t == rs + [v'];
    SetNameThenGetName(v.tags, n);
    assert NameOf(v') == n;
    MatchingAppend(rs, v', Some(n));
    AtMostOneIffLookupUnique(t, n);
  }

  /** No entry carries the name `n`, so the filter is empty. */
  lemma {:induction false} NoneNamed(rs: seq<Resource>, n: string)
    requires forall i :: 0 <= i < |rs| ==> NameOf(rs[i]) != n
    ensures Matching(rs, Some(n)) == []
  {
    if rs != [] {
      assert forall i :: 0 <= i < |rs| - 1 ==> rs[1..][i] == rs[i + 1];
      NoneNamed(rs[1..], n);
    }
  }

  /** Once the only volume named `n` is deleted, no volume has that name. */
  lemma RemoveSoleNamed(vs: seq<Resource>, v: Resource, n: string)
    requires AtMostOneNamed(vs, n) && v in vs && NameOf(v) == n
    requires forall i, j :: 0 <= i < |vs| && 0 <= j < |vs| && i != j ==> vs[i].id != vs[j].id
    ensures Matching(RemoveId(vs, v.id), Some(n)) == []
  {
    var rest := RemoveId(vs, v.id);
    forall i | 0 <= i < |rest| ensures NameOf(rest[i]) != n {
      var x := rest[i];
      assert x in vs && x.id != v.id;
      var a :| 0 <= a < |vs| && vs[a] == x;
      var b :| 0 <= b < |vs| && vs[b] == v;
      assert a != b;
    }
    NoneNamed(rest, n);
  }
}
