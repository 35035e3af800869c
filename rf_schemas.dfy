/**
 * The configuration side of the gateway (src/ramses_rf/schemas.py): the
 * restore-cache normaliser, the index patterns of the schema, the
 * known-list/block-list check made before a device is created from the
 * schema, and `load_schema`, which walks the schema's keys creating the
 * controllers (with their UFH controllers and orphans), the fans and the
 * orphans, and selects the main heating system.
 *
 * A schema value is a `Node`; dicts keep their keys in order, as Python's
 * do, because `load_schema` creates devices in that order. Creating a
 * device is recorded as a request for its id: the gateway's `get_device`
 * and the systems it builds are not part of this model.
 */
module RfSchemas {
  import opened Common

  datatype Node = NStr(s: string) | NInt(i: int) | NBool(b: bool) | NNull | NList(l: seq<Node>) | NDict(items: seq<(string, Node)>)

  const RestoreSchema: string := "restore_schema"
  const RestoreState: string := "restore_state"
  const MainTcs: string := "main_tcs"
  const Remotes: string := "remotes"
  const UfhSystem: string := "underfloor_heating"
  const Orphans: string := "orphans"
  const OrphansHeat: string := "orphans_heat"
  const OrphansHvac: string := "orphans_hvac"

  /** The keys of a dict, in order. */
  function Keys(items: seq<(string, Node)>): (r: seq<string>)
    ensures |r| == |items| && forall i :: 0 <= i < |r| ==> r[i] == items[i].0
  {
    if items == [] then [] else [items[0].0] + Keys(items[1..])
  }

  /** `d.get(k)`: the value of the key (dict keys are distinct, so the first is the only one). */
  function Get(items: seq<(string, Node)>, k: string): (r: Option<Node>)
    ensures r.Some? <==> k in Keys(items)
    ensures r.Some? ==> exists i :: 0 <= i < |items| && items[i] == (k, r.value)
  {
    if items == [] then None
    else if items[0].0 == k then Some(items[0].1)
    else Get(items[1..], k)
  }

  /**
   * `NormaliseRestoreCache`: a bool b becomes {restore_schema: b,
   * restore_state: b}; any other value passes unchanged.
   */
  function NormaliseRestoreCache(v: Node): (r: Node)
    ensures v.NBool? ==> r == NDict([(RestoreSchema, v), (RestoreState, v)])
    ensures !v.NBool? ==> r == v
  {
    if v.NBool? then NDict([(RestoreSchema, v), (RestoreState, v)]) else v
  }

  /** Normalising twice is normalising once; the result is never a bool, and both flags carry the bool given. */
  lemma RestoreCacheNormalisesOnce(v: Node)
    ensures NormaliseRestoreCache(NormaliseRestoreCache(v)) == NormaliseRestoreCache(v)
    ensures !NormaliseRestoreCache(v).NBool?
    ensures v.NBool? ==> (Get(NormaliseRestoreCache(v).items, RestoreSchema) == Some(v)
      && Get(NormaliseRestoreCache(v).items, RestoreState) == Some(v))
  {
  }

  /** The end of a `^...$` match: the whole string, or all but one final newline (Python's `$`). */
  predicate EndsAt(s: string, n: nat)
  {
    |s| == n || (|s| == n + 1 && s[n] == '\n')
  }

  /** `SCH_DOM_ID`: two upper-case hex digits. */
  predicate IsDomainId(s: string)
  {
    EndsAt(s, 2) && IsUpperHex(s[0]) && IsUpperHex(s[1])
  }

  /** `SCH_UFH_IDX`: 00 to 08. */
  predicate IsUfhIdx(s: string)
  {
    EndsAt(s, 2) && s[0] == '0' && '0' <= s[1] <= '8'
  }

  /** `SCH_ZON_IDX`: 00 to 09, 0A and 0B. */
  predicate IsZoneIdx(s: string)
  {
    EndsAt(s, 2) && s[0] == '0' && ('0' <= s[1] <= '9' || s[1] == 'A' || s[1] == 'B')
  }

  /** `DEVICE_ID_REGEX.ANY`: two digits, a colon and six digits. */
  predicate IsDeviceId(s: string)
  {
    EndsAt(s, 9) && IsAsciiDigit(s[0]) && IsAsciiDigit(s[1]) && s[2] == ':' && AllDigits(s[3..9])
  }

  /**
   * The patterns nest: every UFH circuit index is a zone index and every
   * zone index a domain id; there are twelve zone indexes, and a trailing
   * newline is let through.
   */
  lemma IndexPatternsNest(s: string)
    ensures IsUfhIdx(s) ==> IsZoneIdx(s)
    ensures IsZoneIdx(s) ==> IsDomainId(s)
    ensures IsZoneIdx(s) && |s| == 2 <==> s in {"00", "01", "02", "03", "04", "05", "06", "07", "08", "09", "0A", "0B"}
    ensures IsZoneIdx("0B\n") && !IsZoneIdx("0C") && !IsUfhIdx("09")
  {
    if IsZoneIdx(s) && |s| == 2 {
      assert s == [s[0], s[1]];
    }
  }

  /** The exceptions `load_schema` may raise. */
  datatype SchemaError = LookupError(id: string) | TypeError

  /**
   * `check_filter_lists`: an id in the block list, or (with the known
   * list enforced) not in the known list, raises LookupError.
   */
  function CheckFilterLists(enforceKnownList: bool, known: set<string>, exclude: set<string>, devId: string): (r: Result<(), SchemaError>)
    ensures r.Err? <==> devId in exclude || (enforceKnownList && devId !in known)
    ensures r.Err? ==> r.error == LookupError(devId)
  {
    if (enforceKnownList && devId !in known) || devId in exclude then Err(LookupError(devId)) else Ok(())
  }

  /** A blocked id is refused even when it is known; a known, unblocked id always passes. */
  lemma BlockListWins(enforceKnownList: bool, known: set<string>, exclude: set<string>, devId: string)
    ensures devId in exclude ==> CheckFilterLists(enforceKnownList, known, exclude, devId).Err?
    ensures devId in known && devId !in exclude ==> CheckFilterLists(enforceKnownList, known, exclude, devId).Ok?
    ensures !enforceKnownList && devId !in exclude ==> CheckFilterLists(enforceKnownList, known, exclude, devId).Ok?
  {
  }

  /** Python's `k in v` for a schema value: a dict's keys, a list's items, a string's substrings; otherwise TypeError. */
  function Contains(v: Node, k: string): (r: Result<bool, SchemaError>)
    ensures v.NDict? ==> r == Ok(k in Keys(v.items))
    ensures r.Err? <==> !(v.NDict? || v.NList? || v.NStr?)
  {
    match v
    case NDict(items) => Ok(k in Keys(items))
    case NList(l) => Ok(NStr(k) in l)
    case NStr(s) => Ok(exists i, j :: 0 <= i <= j <= |s| && s[i..j] == k)
    case _ => Err(TypeError)
  }

  /**
   * The device ids of a value that is iterated over (absent: nothing): a
   * dict's keys, a list's strings, a string's characters; a number, a
   * bool or None is not iterable and raises TypeError.
   */
  function IterIds(v: Option<Node>): (r: Result<seq<string>, SchemaError>)
    ensures v.None? ==> r == Ok([])
    ensures v.Some? && v.value.NDict? ==> r == Ok(Keys(v.value.items))
    ensures v.Some? && v.value.NStr? ==> r.Ok? && |r.value| == |v.value.s| && forall i :: 0 <= i < |r.value| ==> r.value[i] == [v.value.s[i]]
    ensures v.Some? && (v.value.NInt? || v.value.NBool? || v.value.NNull?) ==> r == Err(TypeError)
  {
    if v.None? then Ok([])
    else match v.value
      case NDict(items) => Ok(Keys(items))
      case NList(l) => if forall i :: 0 <= i < |l| ==> l[i].NStr? then Ok(seq(|l|, i requires 0 <= i < |l| => l[i].s)) else Err(TypeError)
      case NStr(s) => Ok(seq(|s|, i requires 0 <= i < |s| => [s[i]]))
      case _ => Err(TypeError)
  }

  /** What `load_schema` does, in order: create a device, raise, or select the main system. */
  datatype Step = Request(id: string) | Raise(e: SchemaError) | SelectTcs(key: Node)

  function Requests(ids: seq<string>): (r: seq<Step>)
    ensures |r| == |ids|
    ensures forall i :: 0 <= i < |r| ==> r[i].Request?
  {
    if ids == [] then [] else [Request(ids[0])] + Requests(ids[1..])
  }

  function IdSteps(ids: Result<seq<string>, SchemaError>): seq<Step>
  {
    if ids.Ok? then Requests(ids.value) else [Raise(ids.error)]
  }

  /**
   * `load_tcs`: the controller, then its UFH controllers, then its
   * orphans; a schema that is not a dict cannot be unpacked as keyword
   * arguments once the controller exists.
   */
  function TcsSteps(ctlId: string, schema: Node): seq<Step>
  {
    if !schema.NDict? then [Request(ctlId), Raise(TypeError)]
    else [Request(ctlId)] + IdSteps(IterIds(Get(schema.items, UfhSystem))) + IdSteps(IterIds(Get(schema.items, Orphans)))
  }

  /** The first pass: each device-id key without remotes is a heating system. */
  function TcsPass(kwargs: seq<(string, Node)>): (r: seq<Step>)
    ensures forall i :: 0 <= i < |r| ==> !r[i].SelectTcs?
  {
    if kwargs == [] then []
    else
      var (k, v) := kwargs[0];
      var here :=
        if !IsDeviceId(k) then []
        else match Contains(v, Remotes)
          case Err(e) => [Raise(e)]
          case Ok(hasRemotes) => if hasRemotes then [] else TcsSteps(k, v);
      here + TcsPass(kwargs[1..])
  }

  /** The second pass: each device-id key with remotes is a fan. */
  function FanPass(kwargs: seq<(string, Node)>): (r: seq<Step>)
    ensures |r| <= |kwargs|
    ensures forall i :: 0 <= i < |r| ==> r[i].Raise? || (r[i].Request? && IsDeviceId(r[i].id))
  {
    if kwargs == [] then []
    else
      var (k, v) := kwargs[0];
      var here :=
        if !IsDeviceId(k) then []
        else match Contains(v, Remotes)
          case Err(e) => [Raise(e)]
          case Ok(hasRemotes) => if hasRemotes then [Request(k)] else [];
      here + FanPass(kwargs[1..])
  }

  /** Python's truthiness of a schema value. */
  predicate Truthy(v: Node)
  {
    match v
    case NStr(s) => s != ""
    case NInt(i) => i != 0
    case NBool(b) => b
    case NNull => false
    case NList(l) => l != []
    case NDict(items) => items != []
  }

  /** `load_schema`: the systems, the main system if one is named, the fans, then the heating and HVAC orphans. */
  function LoadSchemaSteps(kwargs: seq<(string, Node)>): (r: seq<Step>)
    ensures forall i :: 0 <= i < |r| && r[i].SelectTcs? ==>
      i == |TcsPass(kwargs)| && Get(kwargs, MainTcs) == Some(r[i].key) && Truthy(r[i].key)
  {
    var main := Get(kwargs, MainTcs);
    TcsPass(kwargs)
    + (if main.Some? && Truthy(main.value) then [SelectTcs(main.value)] else [])
    + FanPass(kwargs)
    + IdSteps(IterIds(Get(kwargs, OrphansHeat)))
    + IdSteps(IterIds(Get(kwargs, OrphansHvac)))
  }

  /** The keys `load_schema` treats as systems and as fans. */
  function SystemKeys(kwargs: seq<(string, Node)>): seq<string>
  {
    if kwargs == [] then []
    else (if IsDeviceId(kwargs[0].0) && Contains(kwargs[0].1, Remotes) == Ok(false) then [kwargs[0].0] else []) + SystemKeys(kwargs[1..])
  }

  function FanKeys(kwargs: seq<(string, Node)>): seq<string>
  {
    if kwargs == [] then []
    else (if IsDeviceId(kwargs[0].0) && Contains(kwargs[0].1, Remotes) == Ok(true) then [kwargs[0].0] else []) + FanKeys(kwargs[1..])
  }

  /** Dict keys are distinct. */
  predicate DistinctKeys(items: seq<(string, Node)>)
  {
    forall i, j :: 0 <= i < j < |items| ==> items[i].0 != items[j].0
  }

  /** Only device-id keys of the schema are taken as systems or fans. */
  lemma {:induction false} PassKeysAreDeviceIds(kwargs: seq<(string, Node)>)
    ensures forall k :: k in SystemKeys(kwargs) ==> k in Keys(kwargs) && IsDeviceId(k)
    ensures forall k :: k in FanKeys(kwargs) ==> k in Keys(kwargs) && IsDeviceId(k)
  {
    if kwargs != [] {
      PassKeysAreDeviceIds(kwargs[1..]);
      assert Keys(kwargs) == [kwargs[0].0] + Keys(kwargs[1..]);
    }
  }

  /** Every device-id key whose value can be searched for remotes is a system or a fan. */
  lemma {:induction false} DeviceKeysAreClassified(kwargs: seq<(string, Node)>)
    ensures forall i :: 0 <= i < |kwargs| && IsDeviceId(kwargs[i].0) && Contains(kwargs[i].1, Remotes).Ok? ==>
      kwargs[i].0 in SystemKeys(kwargs) + FanKeys(kwargs)
  {
    if kwargs != [] {
      DeviceKeysAreClassified(kwargs[1..]);
      forall i | 0 <= i < |kwargs| && IsDeviceId(kwargs[i].0) && Contains(kwargs[i].1, Remotes).Ok?
        ensures kwargs[i].0 in SystemKeys(kwargs) + FanKeys(kwargs)
      {
        if i > 0 {
          assert kwargs[1..][i - 1] == kwargs[i];
        }
      }
    }
  }

  /** In a dict, no key is both a system and a fan. */
  lemma {:induction false} SystemsAreNotFans(kwargs: seq<(string, Node)>)
    requires DistinctKeys(kwargs)
    ensures forall k :: !(k in SystemKeys(kwargs) && k in FanKeys(kwargs))
  {
    if kwargs != [] {
      var rest := kwargs[1..];
      assert DistinctKeys(rest) by {
        forall i, j | 0 <= i < j < |rest|
          ensures rest[i].0 != rest[j].0
        {
          assert rest[i] == kwargs[i + 1] && rest[j] == kwargs[j + 1];
        }
      }
      SystemsAreNotFans(rest);
      PassKeysAreDeviceIds(rest);
      assert kwargs[0].0 !in Keys(rest) by {
        forall j | 0 <= j < |rest|
          ensures Keys(rest)[j] != kwargs[0].0
        {
          assert rest[j] == kwargs[j + 1];
        }
      }
    }
  }

  /**
   * Schemas whose values are plain dicts with no UFH controllers or
   * orphans: the first pass creates exactly the systems' controllers, the
   * second exactly the fans, in the schema's order.
   */
  lemma {:induction false} PassesCreateTheirKeys(kwargs: seq<(string, Node)>)
    requires forall i :: 0 <= i < |kwargs| ==> (kwargs[i].1.NDict?
      && UfhSystem !in Keys(kwargs[i].1.items) && Orphans !in Keys(kwargs[i].1.items))
    ensures TcsPass(kwargs) == Requests(SystemKeys(kwargs))
    ensures FanPass(kwargs) == Requests(FanKeys(kwargs))
  {
    if kwargs != [] {
      PassesCreateTheirKeys(kwargs[1..]);
      RequestsAppend(if IsDeviceId(kwargs[0].0) && Contains(kwargs[0].1, Remotes) == Ok(false) then [kwargs[0].0] else [], SystemKeys(kwargs[1..]));
      RequestsAppend(if IsDeviceId(kwargs[0].0) && Contains(kwargs[0].1, Remotes) == Ok(true) then [kwargs[0].0] else [], FanKeys(kwargs[1..]));
    }
  }

  lemma {:induction false} RequestsAppend(a: seq<string>, b: seq<string>)
    ensures Requests(a + b) == Requests(a) + Requests(b)
  {
    if a == [] {
      assert a + b == b;
    } else {
      assert (a + b)[0] == a[0] && (a + b)[1..] == a[1..] + b;
      assert Requests(a + b) == [Request(a[0])] + Requests(a[1..] + b);
      RequestsAppend(a[1..], b);
      assert Requests(a) == [Request(a[0])] + Requests(a[1..]);
    }
  }

  /** The gateway's filter lists, its systems by controller id, and what loading a schema does to it. */
  class Gateway {
    const enforceKnownList: bool
    /** `_include` and `_exclude`, the known list and the block list. */
    const known: set<string>
    const exclude: set<string>
    const systemById: map<string, string>
    /** The ids `_get_device` has passed on to `get_device`, in order. */
    var requested: seq<string>
    /** `_tcs`, the main heating system. */
    var tcs: Option<string>

    constructor (enforceKnownList: bool, known: set<string>, exclude: set<string>, systemById: map<string, string>)
      ensures this.enforceKnownList == enforceKnownList && this.known == known && this.exclude == exclude
      ensures this.systemById == systemById && requested == [] && tcs == None
    {
      this.enforceKnownList := enforceKnownList;
      this.known := known;
      this.exclude := exclude;
      this.systemById := systemById;
      requested := [];
      tcs := None;
    }

    /** `gwy._tcs = gwy.system_by_id.get(key)`: a dict or list key is unhashable. */
    function Select(key: Node): (r: Result<Option<string>, SchemaError>)
      ensures key.NStr? ==> r == Ok(if key.s in systemById then Some(systemById[key.s]) else None)
      ensures r.Err? <==> key.NDict? || key.NList?
    {
      match key
      case NStr(s) => Ok(if s in systemById then Some(systemById[s]) else None)
      case NDict(_) => Err(TypeError)
      case NList(_) => Err(TypeError)
      case _ => Ok(None)
    }

    /**
     * The steps run from a state: a request passes the filter lists or
     * raises; a selection sets the main system; the first exception
     * ends the run.
     */
    function Exec(requested: seq<string>, tcs: Option<string>, steps: seq<Step>): (seq<string>, Option<string>, Option<SchemaError>)
      decreases |steps|
    {
      if steps == [] then (requested, tcs, None)
      else match steps[0]
        case Request(id) =>
          var check := CheckFilterLists(enforceKnownList, known, exclude, id);
          if check.Err? then (requested, tcs, Some(check.error))
          else Exec(requested + [id], tcs, steps[1..])
        case Raise(e) => (requested, tcs, Some(e))
        case SelectTcs(key) =>
          var sel := Select(key);
          if sel.Err? then (requested, tcs, Some(sel.error))
          else Exec(requested, sel.value, steps[1..])
    }

    /** A run only ever adds requests, and every id it adds passed the filter lists. */
    lemma {:induction false} ExecOnlyRequestsAllowedIds(requested: seq<string>, tcs: Option<string>, steps: seq<Step>)
      ensures var (req, _, _) := Exec(requested, tcs, steps);
        |requested| <= |req| && req[..|requested|] == requested
        && forall i :: |requested| <= i < |req| ==> CheckFilterLists(enforceKnownList, known, exclude, req[i]).Ok?
      decreases |steps|
    {
      if steps != [] {
        match steps[0]
        case Request(id) =>
          if CheckFilterLists(enforceKnownList, known, exclude, id).Ok? {
            ExecOnlyRequestsAllowedIds(requested + [id], tcs, steps[1..]);
          }
        case Raise(_) =>
        case SelectTcs(key) =>
          if Select(key).Ok? {
            ExecOnlyRequestsAllowedIds(requested, Select(key).value, steps[1..]);
          }
      }
    }

    /** Requests for ids that all pass the filter lists add exactly those ids, in order. */
    lemma {:induction false} AllowedRequestsAreMade(requested: seq<string>, tcs: Option<string>, ids: seq<string>)
      requires forall i :: 0 <= i < |ids| ==> CheckFilterLists(enforceKnownList, known, exclude, ids[i]).Ok?
      ensures Exec(requested, tcs, Requests(ids)) == (requested + ids, tcs, None)
      decreases |ids|
    {
      if ids != [] {
        var rest := ids[1..];
        assert Requests(ids) == [Request(ids[0])] + Requests(rest);
        ExecRequest(requested, tcs, ids[0], Requests(rest));
        forall i | 0 <= i < |rest|
          ensures CheckFilterLists(enforceKnownList, known, exclude, rest[i]).Ok?
        {
          assert rest[i] == ids[i + 1];
        }
        AllowedRequestsAreMade(requested + [ids[0]], tcs, rest);
        assert requested + [ids[0]] + rest == requested + ids;
      } else {
        assert requested + ids == requested;
      }
    }

    /** One request for an id that passes the filter lists is made, and the run goes on. */
    lemma ExecRequest(requested: seq<string>, tcs: Option<string>, id: string, steps: seq<Step>)
      requires CheckFilterLists(enforceKnownList, known, exclude, id).Ok?
      ensures Exec(requested, tcs, [Request(id)] + steps) == Exec(requested + [id], tcs, steps)
    {
      assert ([Request(id)] + steps)[1..] == steps;
    }

    /**
     * Loading a plain schema (systems and fans only, with no UFH
     * controllers, orphans or main system) whose ids all pass the filter
     * lists creates the systems' controllers, then the fans, in the
     * schema's order, and raises nothing.
     */
    lemma LoadPlainSchema(requested: seq<string>, tcs: Option<string>, kwargs: seq<(string, Node)>)
      requires forall i :: 0 <= i < |kwargs| ==> (kwargs[i].1.NDict?
        && UfhSystem !in Keys(kwargs[i].1.items) && Orphans !in Keys(kwargs[i].1.items))
      requires MainTcs !in Keys(kwargs) && OrphansHeat !in Keys(kwargs) && OrphansHvac !in Keys(kwargs)
      requires forall k :: k in SystemKeys(kwargs) + FanKeys(kwargs) ==> CheckFilterLists(enforceKnownList, known, exclude, k).Ok?
      ensures Exec(requested, tcs, LoadSchemaSteps(kwargs)) == (requested + (SystemKeys(kwargs) + FanKeys(kwargs)), tcs, None)
    {
      var ids := SystemKeys(kwargs) + FanKeys(kwargs);
      PassesCreateTheirKeys(kwargs);
      RequestsAppend(SystemKeys(kwargs), FanKeys(kwargs));
      assert LoadSchemaSteps(kwargs) == Requests(ids);
      assert forall i :: 0 <= i < |ids| ==> ids[i] in ids;
      AllowedRequestsAreMade(requested, tcs, ids);
    }

    /** Run the steps of `load_schema`, one at a time. */
    method Run(steps: seq<Step>) returns (e: Option<SchemaError>)
      modifies this
      ensures (requested, tcs, e) == Exec(old(requested), old(tcs), steps)
    {
      var i := 0;
      while i < |steps|
        invariant 0 <= i <= |steps|
        invariant Exec(old(requested), old(tcs), steps) == Exec(requested, tcs, steps[i..])
        decreases |steps| - i
      {
        assert steps[i..][0] == steps[i] && steps[i..][1..] == steps[i + 1..];
        match steps[i] {
          case Request(id) =>
            var check := CheckFilterLists(enforceKnownList, known, exclude, id);
            if check.Err? {
              return Some(check.error);
            }
            requested := requested + [id];
          case Raise(err) =>
            return Some(err);
          case SelectTcs(key) =>
            var sel := Select(key);
            if sel.Err? {
              return Some(sel.error);
            }
            tcs := sel.value;
        }
        i := i + 1;
      }
      e := None;
    }

    /** `load_schema`. */
    method LoadSchema(kwargs: seq<(string, Node)>) returns (e: Option<SchemaError>)
      modifies this
      ensures (requested, tcs, e) == Exec(old(requested), old(tcs), LoadSchemaSteps(kwargs))
      ensures |old(requested)| <= |requested| && requested[..|old(requested)|] == old(requested)
      ensures forall i :: |old(requested)| <= i < |requested| ==> requested[i] !in exclude && (enforceKnownList ==> requested[i] in known)
    {
      ExecOnlyRequestsAllowedIds(requested, tcs, LoadSchemaSteps(kwargs));
      e := Run(LoadSchemaSteps(kwargs));
    }
  }
}
