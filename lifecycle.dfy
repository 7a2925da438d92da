/**
 * What both revisions of the drive class share: the unique lookup of a
 * drive's volume, the choice of the latest snapshot, and how the instance
 * argument of `attach` is resolved.
 */
module Lifecycle {
  import opened Wrappers
  import opened Tags
  import opened Cloud
  import opened Directory

  /** get(name, collections=c) with unique=True, on one table. */
  function Lookup(rs: seq<Resource>, name: string): Result<Option<Resource>, Error> {
    var ms := Matching(rs, Some(name));
    if |ms| == 0 then Ok(None) else if |ms| == 1 then Ok(Some(ms[0])) else Err(MoreThanOne(ms))
  }

  /** The unique lookup, performed with the directory's `get`. */
  method LookupIn(w: World, c: Collection, name: string) returns (r: Result<Option<Resource>, Error>)
    ensures r == Lookup(w.Listing(c), name)
  {
    var f := Get(w, Some(name), Single(c), true);
    GatherSingle(w, c, Some(name));
    match f {
      case Err(e) => r := Err(e);
      case Ok(NoMatch) => r := Ok(None);
      case Ok(Sole(x)) => r := Ok(Some(x));
      case Ok(Every(_)) => assert false; r := Ok(None);
    }
  }

  /** get(name, collections=c, unique=False): every match, or None when there is none. */
  method LookupAllIn(w: World, c: Collection, name: string) returns (r: Result<seq<Resource>, Error>)
    ensures r == Ok(Matching(w.Listing(c), Some(name)))
  {
    var f := Get(w, Some(name), Single(c), false);
    GatherSingle(w, c, Some(name));
    match f {
      case Ok(NoMatch) => r := Ok([]);
      case Ok(Every(xs)) => r := Ok(xs);
      case Ok(Sole(_)) => assert false; r := Ok([]);
      case Err(_) => assert false; r := Ok([]);
    }
  }

  /** sorted(snapshots, key=start_time, reverse=True)[0]: Python's sort is stable, so the first of the latest. */
  function LatestIndex(snaps: seq<Resource>): (i: nat)
    requires snaps != [] && forall k :: 0 <= k < |snaps| ==> snaps[k].Snapshot?
    ensures i < |snaps|
    ensures forall k :: 0 <= k < |snaps| ==> snaps[k].startTime <= snaps[i].startTime
    ensures forall k :: 0 <= k < i ==> snaps[k].startTime < snaps[i].startTime
  {
    if |snaps| == 1 then 0
    else
      var init := snaps[..|snaps| - 1];
      var j := LatestIndex(init);
      assert init[j] == snaps[j];
      if snaps[|snaps| - 1].startTime > snaps[j].startTime then |snaps| - 1 else j
  }

  /** Being latest and first among the latest picks one snapshot only. */
  lemma LatestIndexUnique(snaps: seq<Resource>, i: nat)
    requires snaps != [] && forall k :: 0 <= k < |snaps| ==> snaps[k].Snapshot?
    requires i < |snaps| && forall k :: 0 <= k < |snaps| ==> snaps[k].startTime <= snaps[i].startTime
    requires forall k :: 0 <= k < i ==> snaps[k].startTime < snaps[i].startTime
    ensures i == LatestIndex(snaps)
  {
  }

  /** The snapshots of a table carrying a name. */
  function NamedSnapshots(snaps: seq<Resource>, name: string): (ns: seq<Resource>)
    requires forall k :: 0 <= k < |snaps| ==> snaps[k].Snapshot?
    ensures forall k :: 0 <= k < |ns| ==> ns[k].Snapshot? && ns[k] in snaps && NameOf(ns[k]) == name
  {
    var ns := Matching(snaps, Some(name));
    assert forall k :: 0 <= k < |ns| ==> ns[k] in snaps;
    ns
  }

  /** The snapshot a restore starts from: the latest one carrying the name, if any. */
  function LatestNamed(snaps: seq<Resource>, name: string): Option<Resource>
    requires forall k :: 0 <= k < |snaps| ==> snaps[k].Snapshot?
  {
    var ns := NamedSnapshots(snaps, name);
    if ns == [] then None else Some(ns[LatestIndex(ns)])
  }

  /** The `instance` argument of attach: a name to look up, or an instance object. */
  datatype InstanceArg = ByName(name: string) | Given(inst: Resource)

  /**
   * The instance attach works on. A name is looked up uniquely; when nothing
   * has the name, the next line reads `public_ip_address` of None.
   */
  function Resolve(instances: seq<Resource>, arg: InstanceArg): Result<Resource, Error> {
    match arg
    case Given(i) => Ok(i)
    case ByName(n) =>
      match Lookup(instances, n)
      case Err(e) => Err(e)
      case Ok(None) => Err(AttributeError("public_ip_address"))
      case Ok(Some(i)) => Ok(i)
  }

  method ResolveIn(w: World, arg: InstanceArg) returns (r: Result<Resource, Error>)
    ensures r == Resolve(w.instances, arg)
  {
    match arg {
      case Given(i) => r := Ok(i);
      case ByName(n) =>
        var l := LookupIn(w, Instances, n);
        match l {
          case Err(e) => r := Err(e);
          case Ok(None) => r := Err(AttributeError("public_ip_address"));
          case Ok(Some(i)) => r := Ok(i);
        }
    }
  }

  /** A resolved instance is one of the table's instances. */
  lemma ResolvedIsListed(instances: seq<Resource>, arg: InstanceArg)
    requires arg.Given? ==> arg.inst in instances
    requires Resolve(instances, arg).Ok?
    ensures Resolve(instances, arg).value in instances
  {
    if arg.ByName? {
      assert Matching(instances, Some(arg.name))[0] in Matching(instances, Some(arg.name));
    }
  }

  // ----- the sole named entry of a table -----

  /** A lookup that finds one entry finds an entry of the table, and no second one. */
  lemma SoleMatch(rs: seq<Resource>, n: string)
    requires |Matching(rs, Some(n))| == 1
    ensures AtMostOneNamed(rs, n)
    ensures Matching(rs, Some(n))[0] in rs && NameOf(Matching(rs, Some(n))[0]) == n
  {
    AtMostOneIffLookupUnique(rs, n);
    assert Matching(rs, Some(n))[0] in Matching(rs, Some(n));
  }

  /**
   * When the entry at `k` is the only one named `n` and an update keeps
   * every entry's name, the updated entry at `k` is the only one named `n`.
   */
  lemma SoleMatchMoves(vs: seq<Resource>, ws: seq<Resource>, k: nat, n: string)
    requires |vs| == |ws| && forall i :: 0 <= i < |vs| ==> NameOf(ws[i]) == NameOf(vs[i])
    requires k < |vs| && NameOf(vs[k]) == n && AtMostOneNamed(vs, n)
    ensures Matching(ws, Some(n)) == [ws[k]] && AtMostOneNamed(ws, n)
  {
    MatchingSameNames(vs, ws, Some(n));
    AtMostOneSameNames(vs, ws, n);
    AtMostOneIffLookupUnique(ws, n);
    var ms := Matching(ws, Some(n));
    assert ws[k] in ms;
    assert |ms| == 1;
    assert ms[0] in ms;
    assert ms[0] in ws && NameOf(ms[0]) == n;
    var j :| 0 <= j < |ws| && ws[j] == ms[0];
    assert j == k;
  }

  /** The position of a volume in a table with distinct ids, found by its id. */
  lemma IndexOf(vs: seq<Resource>, v: Resource) returns (k: nat)
    requires v in vs
    ensures k < |vs| && vs[k] == v
  {
    k :| 0 <= k < |vs| && vs[k] == v;
  }
}
