/**
 * Staging many entities as blobs: a loop that uploads one blob per entity, in
 * list order, and stops at the first exception; and the deterministic blob
 * names the stagers give each entity.
 */
module Staging {
  import opened Values
  import opened Storage
  import opened Upstream

  // ---------------------------------------------------------------------
  // Blob names

  /** `f"tv_show_{show_id}.json"`. */
  function ShowBlobName(showId: Json): string
  {
    "tv_show_" + Str(showId) + ".json"
  }

  /** `f"tv_show_{show_id}_season_{season_id}.json"` (kind "season") and its episode twin. */
  function ChildBlobName(showId: Json, kind: string, id: Json): string
  {
    "tv_show_" + Str(showId) + "_" + kind + "_" + Str(id) + ".json"
  }

  predicate NoChar(s: string, c: char)
  {
    forall i | 0 <= i < |s| :: s[i] != c
  }

  /** A text free of `c` followed by `c...` is never a longer such text followed by `c...`. */
  lemma MarkerPosition(x: string, b: string, y: string, d: string, c: char)
    requires NoChar(x, c) && NoChar(y, c)
    requires |b| > 0 && b[0] == c && |d| > 0 && d[0] == c
    ensures |x| < |y| ==> x + b != y + d
  {
    if |x| < |y| {
      assert (x + b)[|x|] == c;
      assert (y + d)[|x|] == y[|x|] != c;
    }
  }

  /** Two texts that each end at the first `c` are equal when the strings they start are. */
  lemma SplitAtMarker(x: string, b: string, y: string, d: string, c: char)
    requires x + b == y + d
    requires NoChar(x, c) && NoChar(y, c)
    requires |b| > 0 && b[0] == c && |d| > 0 && d[0] == c
    ensures x == y && b == d
  {
    MarkerPosition(x, b, y, d, c);
    MarkerPosition(y, d, x, b, c);
    assert |x| == |y|;
    assert x == (x + b)[..|x|];
    assert y == (y + d)[..|y|];
    assert b == (x + b)[|x|..];
    assert d == (y + d)[|y|..];
  }

  /** The same prefix followed by two texts that each end at the first `c`: the texts and what follows them agree. */
  lemma SplitAfterPrefix(p: string, x: string, b: string, y: string, d: string, c: char)
    requires p + (x + b) == p + (y + d)
    requires NoChar(x, c) && NoChar(y, c)
    requires |b| > 0 && b[0] == c && |d| > 0 && d[0] == c
    ensures x == y && b == d
  {
    assert x + b == (p + (x + b))[|p|..];
    assert y + d == (p + (y + d))[|p|..];
    SplitAtMarker(x, b, y, d, c);
  }

  lemma IntTextHasNo(n: int, c: char)
    requires c == '_' || c == '.'
    ensures NoChar(Str(JInt(n)), c)
  {
    IntToStringChars(n);
  }

  /** Distinct integer show ids get distinct show blob names. */
  lemma ShowBlobNameInjective(a: int, b: int)
    ensures ShowBlobName(JInt(a)) == ShowBlobName(JInt(b)) ==> a == b
  {
    if ShowBlobName(JInt(a)) == ShowBlobName(JInt(b)) {
      var x, y := Str(JInt(a)), Str(JInt(b));
      assert ShowBlobName(JInt(a)) == "tv_show_" + (x + ".json");
      assert ShowBlobName(JInt(b)) == "tv_show_" + (y + ".json");
      IntTextHasNo(a, '.');
      IntTextHasNo(b, '.');
      SplitAfterPrefix("tv_show_", x, ".json", y, ".json", '.');
      IntToStringInjective(a, b);
    }
  }

  lemma ChildBlobNameParts(showId: Json, kind: string, id: Json)
    ensures ChildBlobName(showId, kind, id) == "tv_show_" + (Str(showId) + (("_" + kind + "_") + (Str(id) + ".json")))
  {
  }

  /** Distinct (show id, child id) pairs of integers get distinct child blob names. */
  lemma ChildBlobNameInjective(showA: int, idA: int, showB: int, idB: int, kind: string)
    ensures ChildBlobName(JInt(showA), kind, JInt(idA)) == ChildBlobName(JInt(showB), kind, JInt(idB)) ==>
              showA == showB && idA == idB
  {
    if ChildBlobName(JInt(showA), kind, JInt(idA)) == ChildBlobName(JInt(showB), kind, JInt(idB)) {
      var sa, sb := Str(JInt(showA)), Str(JInt(showB));
      var xa, xb := Str(JInt(idA)), Str(JInt(idB));
      var m := "_" + kind + "_";
      ChildBlobNameParts(JInt(showA), kind, JInt(idA));
      ChildBlobNameParts(JInt(showB), kind, JInt(idB));
      IntTextHasNo(showA, '_');
      IntTextHasNo(showB, '_');
      SplitAfterPrefix("tv_show_", sa, m + (xa + ".json"), sb, m + (xb + ".json"), '_');
      IntTextHasNo(idA, '.');
      IntTextHasNo(idB, '.');
      SplitAfterPrefix(m, xa, ".json", xb, ".json", '.');
      IntToStringInjective(showA, showB);
      IntToStringInjective(idA, idB);
    }
  }

  // ---------------------------------------------------------------------
  // Uploading a list of entities

  /** One loop iteration: upload `data` as `name`, or raise before uploading. */
  datatype Entry = Stage(name: string, data: Json) | Fault(error: Error)

  /** The names a list of entries stages. */
  function Names(plan: seq<Entry>): set<string>
  {
    set i | 0 <= i < |plan| && plan[i].Stage? :: plan[i].name
  }

  lemma NamesTail(plan: seq<Entry>)
    requires plan != []
    ensures Names(plan) == Names(plan[1..]) + (if plan[0].Stage? then {plan[0].name} else {})
  {
    var rest := plan[1..];
    assert forall i | 0 <= i < |rest| :: rest[i] == plan[i + 1];
    forall n | n in Names(plan) ensures n in Names(rest) + (if plan[0].Stage? then {plan[0].name} else {}) {
      var i :| 0 <= i < |plan| && plan[i].Stage? && plan[i].name == n;
      if i > 0 { assert rest[i - 1] == plan[i]; }
    }
  }

  /**
   * The upload loop of a stager: each entry in order, with overwrite on; the
   * first exception stops the loop and reaches the caller. Blobs already
   * written stay written.
   */
  function UploadEach(blobs: map<BlobKey, Stored>, rejected: set<BlobKey>, container: string, plan: seq<Entry>): BlobRun
    decreases |plan|
  {
    if plan == [] then BlobRun(blobs, Completed)
    else
      match plan[0]
      case Fault(e) => BlobRun(blobs, Raised(e))
      case Stage(name, data) =>
        var first := PutBlob(blobs, rejected, container, name, data, true);
        if first.outcome != Completed then first
        else
          UploadEach(first.blobs, rejected, container, plan[1..])
  }

  /**
   * Whatever happens, the loop removes nothing, leaves other containers
   * alone, and changes only blobs that some staged entry names.
   */
  lemma {:induction false} UploadEachFrame(blobs: map<BlobKey, Stored>, rejected: set<BlobKey>, container: string, plan: seq<Entry>)
    ensures var r := UploadEach(blobs, rejected, container, plan);
            && (forall k | k in blobs :: k in r.blobs)
            && (forall k | k in r.blobs && k.0 != container :: k in blobs && r.blobs[k] == blobs[k])
            && (forall k | k in r.blobs && !(k in blobs && blobs[k] == r.blobs[k]) :: k.0 == container && k.1 in Names(plan))
    decreases |plan|
  {
    if plan != [] && plan[0].Stage? {
      var first := PutBlob(blobs, rejected, container, plan[0].name, plan[0].data, true);
      if first.outcome == Completed {
        UploadEachFrame(first.blobs, rejected, container, plan[1..]);
        NamesTail(plan);
      }
    }
  }

  /** The blobs a list of entries stages, later entries overriding earlier ones with the same name. */
  function Staged(container: string, plan: seq<Entry>): map<BlobKey, Stored>
    decreases |plan|
  {
    if plan == [] then map[]
    else
      var rest := Staged(container, plan[1..]);
      var first := if plan[0].Stage? then map[(container, plan[0].name) := BlobPayload(plan[0].data)] else map[];
      first + rest
  }

  /** The staged blobs are exactly the named blobs of the container. */
  lemma {:induction false} StagedKeys(container: string, plan: seq<Entry>)
    ensures forall k :: k in Staged(container, plan) <==> k.0 == container && k.1 in Names(plan)
    decreases |plan|
  {
    if plan != [] {
      StagedKeys(container, plan[1..]);
      NamesTail(plan);
    }
  }

  /** Every entry stages a blob the service accepts. */
  predicate Clean(rejected: set<BlobKey>, container: string, plan: seq<Entry>)
  {
    container != "" &&
    forall i | 0 <= i < |plan| :: plan[i].Stage? && plan[i].name != "" && (container, plan[i].name) !in rejected
  }

  /** One accepted upload, then the rest of the loop. */
  lemma UploadEachStep(blobs: map<BlobKey, Stored>, rejected: set<BlobKey>, container: string, plan: seq<Entry>)
    requires plan != [] && Clean(rejected, container, plan)
    ensures Clean(rejected, container, plan[1..])
    ensures UploadEach(blobs, rejected, container, plan)
            == UploadEach(blobs + map[(container, plan[0].name) := BlobPayload(plan[0].data)], rejected, container, plan[1..])
  {
    var rest := plan[1..];
    assert forall i | 0 <= i < |rest| :: rest[i] == plan[i + 1];
    var key := (container, plan[0].name);
    assert blobs[key := BlobPayload(plan[0].data)] == blobs + map[key := BlobPayload(plan[0].data)];
  }

  /** When nothing fails, the loop completes and leaves the old blobs overlaid with the staged ones. */
  lemma {:induction false} UploadEachStagesAll(blobs: map<BlobKey, Stored>, rejected: set<BlobKey>, container: string, plan: seq<Entry>)
    requires Clean(rejected, container, plan)
    ensures UploadEach(blobs, rejected, container, plan) == BlobRun(blobs + Staged(container, plan), Completed)
    decreases |plan|
  {
    if plan == [] {
      assert blobs + map[] == blobs;
    } else {
      var single := map[(container, plan[0].name) := BlobPayload(plan[0].data)];
      UploadEachStep(blobs, rejected, container, plan);
      UploadEachStagesAll(blobs + single, rejected, container, plan[1..]);
      assert Staged(container, plan) == single + Staged(container, plan[1..]);
      assert (blobs + single) + Staged(container, plan[1..]) == blobs + (single + Staged(container, plan[1..]));
    }
  }

  /** Staging the same list again completes and leaves every blob as the first run left it. */
  lemma UploadEachIdempotent(blobs: map<BlobKey, Stored>, rejected: set<BlobKey>, container: string, plan: seq<Entry>)
    requires Clean(rejected, container, plan)
    ensures var once := UploadEach(blobs, rejected, container, plan);
            UploadEach(once.blobs, rejected, container, plan) == once
  {
    UploadEachStagesAll(blobs, rejected, container, plan);
    UploadEachStagesAll(blobs + Staged(container, plan), rejected, container, plan);
    var s := Staged(container, plan);
    assert (blobs + s) + s == blobs + s;
  }

  /** With pairwise distinct names, each entry's blob holds that entry's data. */
  lemma {:induction false} StagedDistinct(container: string, plan: seq<Entry>, i: nat)
    requires i < |plan| && plan[i].Stage?
    requires forall a, b | 0 <= a < b < |plan| && plan[a].Stage? && plan[b].Stage? :: plan[a].name != plan[b].name
    ensures (container, plan[i].name) in Staged(container, plan)
    ensures Staged(container, plan)[(container, plan[i].name)] == BlobPayload(plan[i].data)
    decreases |plan|
  {
    var rest := plan[1..];
    assert forall a | 0 <= a < |rest| :: rest[a] == plan[a + 1];
    if i == 0 {
      StagedKeys(container, rest);
      assert plan[0].name !in Names(rest);
      assert (container, plan[0].name) !in Staged(container, rest);
    } else {
      StagedDistinct(container, rest, i - 1);
      assert rest[i - 1] == plan[i];
    }
  }

  // ---------------------------------------------------------------------
  // Seasons and episodes of one show

  /** `{'show_id': show_id, 'season': season}` (or its episode twin). */
  function ChildEnvelope(showId: Json, kind: string, item: Json): Json
  {
    JObj(map["show_id" := showId, kind := item])
  }

  /** The loop body for each child: a record that is not a dict has no `.get` and raises. */
  function ChildPlan(showId: Json, kind: string, items: seq<Json>): seq<Entry>
  {
    seq(|items|, i requires 0 <= i < |items| =>
      if items[i].JObj? then Stage(ChildBlobName(showId, kind, Get(items[i].fields, "id")), ChildEnvelope(showId, kind, items[i]))
      else Fault(AttributeError))
  }

  /**
   * `stage_seasons` (kind "season", list "seasons") and `stage_episodes`: a
   * falsy show id or list stages nothing; otherwise each child is uploaded as
   * its envelope under its deterministic name.
   */
  function StageChildren(blobs: map<BlobKey, Stored>, rejected: set<BlobKey>, payload: Record,
                         kind: string, plural: string, container: string): (r: BlobRun)
    ensures !Truthy(Get(payload, "show_id")) || !Truthy(GetOr(payload, plural, JList([]))) ==>
              r == BlobRun(blobs, Completed)
    // a list-shaped payload is staged by the upload loop; anything else raises before any upload
    ensures GetOr(payload, plural, JList([])).JList? && Truthy(Get(payload, "show_id")) ==>
              r == UploadEach(blobs, rejected, container,
                              ChildPlan(payload["show_id"], kind, GetOr(payload, plural, JList([])).items))
    ensures !GetOr(payload, plural, JList([])).JList? ==> r.blobs == blobs
    ensures forall k | k in r.blobs && k.0 != container :: k in blobs && r.blobs[k] == blobs[k]
    ensures forall k | k in blobs :: k in r.blobs
  {
    var showId := Get(payload, "show_id");
    var items := GetOr(payload, plural, JList([]));
    if !Truthy(showId) || !Truthy(items) then BlobRun(blobs, Completed)
    else
      match items
      case JList(xs) =>
        UploadEachFrame(blobs, rejected, container, ChildPlan(showId, kind, xs));
        UploadEach(blobs, rejected, container, ChildPlan(showId, kind, xs))
      case JStr(_) => BlobRun(blobs, Raised(AttributeError))  // iterating yields strings, which have no `.get`
      case JObj(_) => BlobRun(blobs, Raised(AttributeError))  // iterating yields the keys, which are strings
      case _ => BlobRun(blobs, Raised(TypeError))             // not iterable
  }

  /** The children of one show, as the catalog sends them: objects with distinct integer ids. */
  predicate DistinctIntIds(items: seq<Json>)
  {
    && (forall i | 0 <= i < |items| :: items[i].JObj? && Get(items[i].fields, "id").JInt?)
    && (forall i, j | 0 <= i < j < |items| :: Get(items[i].fields, "id") != Get(items[j].fields, "id"))
  }

  /** Children with distinct integer ids get distinct blob names. */
  lemma ChildPlanNamesDistinct(showId: int, items: seq<Json>, kind: string)
    requires DistinctIntIds(items)
    ensures var plan := ChildPlan(JInt(showId), kind, items);
            forall a, b | 0 <= a < b < |plan| && plan[a].Stage? && plan[b].Stage? :: plan[a].name != plan[b].name
  {
    var plan := ChildPlan(JInt(showId), kind, items);
    forall a, b | 0 <= a < b < |plan| && plan[a].Stage? && plan[b].Stage? ensures plan[a].name != plan[b].name {
      var ia, ib := Get(items[a].fields, "id"), Get(items[b].fields, "id");
      assert plan[a].name == ChildBlobName(JInt(showId), kind, JInt(ia.n));
      assert plan[b].name == ChildBlobName(JInt(showId), kind, JInt(ib.n));
      ChildBlobNameInjective(showId, ia.n, showId, ib.n, kind);
    }
  }

  /**
   * One blob per child: for a non-zero integer show id and children with
   * distinct integer ids, staging completes (when the service accepts every
   * upload) and each child's blob holds exactly its envelope.
   */
  lemma StageChildrenOnePerChild(blobs: map<BlobKey, Stored>, rejected: set<BlobKey>, showId: int,
                                 items: seq<Json>, kind: string, container: string)
    requires showId != 0 && items != [] && DistinctIntIds(items) && kind != "show_id"
    requires Clean(rejected, container, ChildPlan(JInt(showId), kind, items))
    ensures var r := UploadEach(blobs, rejected, container, ChildPlan(JInt(showId), kind, items));
            && r.outcome == Completed
            && forall i | 0 <= i < |items| ::
                 var key := (container, ChildBlobName(JInt(showId), kind, Get(items[i].fields, "id")));
                 key in r.blobs && r.blobs[key] == JsonText(ChildEnvelope(JInt(showId), kind, items[i]))
  {
    var plan := ChildPlan(JInt(showId), kind, items);
    ChildPlanNamesDistinct(showId, items, kind);
    UploadEachStagesAll(blobs, rejected, container, plan);
    forall i | 0 <= i < |items|
      ensures (container, plan[i].name) in Staged(container, plan)
      ensures Staged(container, plan)[(container, plan[i].name)] == BlobPayload(plan[i].data)
    {
      StagedDistinct(container, plan, i);
    }
    var r := UploadEach(blobs, rejected, container, plan);
    forall i | 0 <= i < |items|
      ensures var key := (container, ChildBlobName(JInt(showId), kind, Get(items[i].fields, "id")));
              key in r.blobs && r.blobs[key] == JsonText(ChildEnvelope(JInt(showId), kind, items[i]))
    {
      assert plan[i] == Stage(ChildBlobName(JInt(showId), kind, Get(items[i].fields, "id")), ChildEnvelope(JInt(showId), kind, items[i]));
    }
  }

  /**
   * The loop of `stage_seasons` / `stage_episodes` on the live storage
   * service: it leaves the blobs and the outcome the reference definition
   * gives.
   */
  method StageChildBlobs(storage: StorageService, payload: Record, kind: string, plural: string, container: string)
    returns (out: Outcome)
    modifies storage`blobs
    ensures BlobRun(storage.blobs, out) == StageChildren(old(storage.blobs), storage.faults.blobs, payload, kind, plural, container)
  {
    var showId := Get(payload, "show_id");
    var items := GetOr(payload, plural, JList([]));
    if !Truthy(showId) || !Truthy(items) {
      return Completed;
    }
    match items {
      case JList(xs) =>
        ghost var plan := ChildPlan(showId, kind, xs);
        var i := 0;
        while i < |xs|
          invariant 0 <= i <= |xs|
          invariant UploadEach(storage.blobs, storage.faults.blobs, container, plan[i..])
                    == UploadEach(old(storage.blobs), storage.faults.blobs, container, plan)
        {
          assert plan[i..][1..] == plan[i + 1..];
          var item := xs[i];
          if !item.JObj? {
            return Raised(AttributeError);  // `season.get('id')` on a value that is not a dict
          }
          var name := ChildBlobName(showId, kind, Get(item.fields, "id"));
          out := storage.UploadBlobData(container, name, ChildEnvelope(showId, kind, item));
          if out != Completed {
            return;
          }
          i := i + 1;
        }
        out := Completed;
      case JStr(_) => out := Raised(AttributeError);
      case JObj(_) => out := Raised(AttributeError);
      case _ => out := Raised(TypeError);
    }
  }

  // ---------------------------------------------------------------------
  // The details of one show

  /**
   * Fetch one show's details and stage them whole as `tv_show_{show_id}.json`:
   * a failing catalog call raises before anything is written, and an empty
   * answer stages nothing.
   */
  function StageShowDetails(blobs: map<BlobKey, Stored>, rejected: set<BlobKey>, api: TvMaze, showId: Json,
                            embed: bool, container: string): (r: BlobRun)
    ensures api.details(showId, embed).ClientError? ==> r == BlobRun(blobs, Raised(UpstreamError))
    ensures api.details(showId, embed).Got? && !Truthy(api.details(showId, embed).value) ==> r == BlobRun(blobs, Completed)
    ensures api.details(showId, embed).Got? && Truthy(api.details(showId, embed).value) ==>
              r == PutBlob(blobs, rejected, container, ShowBlobName(showId), api.details(showId, embed).value, true)
    ensures r.blobs == blobs
            || (api.details(showId, embed).Got?
                && r.blobs == blobs[(container, ShowBlobName(showId)) := BlobPayload(api.details(showId, embed).value)])
  {
    match api.details(showId, embed)
    case ClientError => BlobRun(blobs, Raised(UpstreamError))
    case Got(data) =>
      if !Truthy(data) then BlobRun(blobs, Completed)
      else PutBlob(blobs, rejected, container, ShowBlobName(showId), data, true)
  }

  /** The fetch-and-stage step on the live storage service. */
  method FetchAndStage(api: TvMaze, storage: StorageService, showId: Json, embed: bool, container: string)
    returns (out: Outcome)
    modifies storage`blobs
    ensures BlobRun(storage.blobs, out) == StageShowDetails(old(storage.blobs), storage.faults.blobs, api, showId, embed, container)
  {
    var fetched := api.details(showId, embed);
    if fetched.ClientError? {
      return Raised(UpstreamError);
    }
    if !Truthy(fetched.value) {
      return Completed;
    }
    out := storage.UploadBlobData(container, ShowBlobName(showId), fetched.value);
  }

  /** `{'show_id': show_id}`, the message that asks for one show to be fetched. */
  function ShowIdMessage(showId: Json): (m: Json)
    ensures m.JObj? && m.fields.Keys == {"show_id"} && m.fields["show_id"] == showId && Truthy(m)
  {
    JObj(map["show_id" := showId])
  }
}
