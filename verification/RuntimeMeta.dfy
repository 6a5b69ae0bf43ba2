/** The runtime metadata bridge that lives under a reserved key of `input`. */
module RuntimeMeta {
  import opened Records

  /** One keyword argument of a metadata patch; `JNull` removes the key. */
  datatype Patch = Patch(key: Key, value: Json)

  function ReadMeta(input: Dict): Dict {
    if RuntimeMetaKey in input && input[RuntimeMetaKey].JObj?
    then input[RuntimeMetaKey].fields
    else map[]
  }

  function PatchOne(meta: Dict, p: Patch): Dict {
    if p.value.JNull? then meta - {p.key} else meta[p.key := p.value]
  }

  function PatchAll(meta: Dict, ps: seq<Patch>): Dict {
    if ps == [] then meta else PatchOne(PatchAll(meta, ps[..|ps| - 1]), ps[|ps| - 1])
  }

  function WithMeta(input: Dict, meta: Dict): Dict {
    if meta != map[] then input[RuntimeMetaKey := JObj(meta)]
    else input - {RuntimeMetaKey}
  }

  function ApplyMeta(input: Dict, ps: seq<Patch>): (r: Dict)
    ensures ReadMeta(r) == PatchAll(ReadMeta(input), ps)
    ensures r - {RuntimeMetaKey} == input - {RuntimeMetaKey}
  {
    WithMeta(input, PatchAll(ReadMeta(input), ps))
  }

  /** The loop that edits a local copy of the metadata dictionary. */
  method ApplyRuntimeMeta(input: Dict, ps: seq<Patch>) returns (r: Dict)
    ensures r == ApplyMeta(input, ps)
  {
    var meta := ReadMeta(input);
    for i := 0 to |ps|
      invariant meta == PatchAll(ReadMeta(input), ps[..i])
    {
      assert ps[..i + 1][..i] == ps[..i];
      if ps[i].value.JNull? {
        meta := meta - {ps[i].key};
      } else {
        meta := meta[ps[i].key := ps[i].value];
      }
    }
    assert ps[..|ps|] == ps;
    if meta != map[] {
      r := input[RuntimeMetaKey := JObj(meta)];
    } else {
      r := input - {RuntimeMetaKey};
    }
  }

  /** Afterwards each key reads as its last patch says, null meaning absence, and any other
      key as before. */
  lemma {:induction false} PatchedReads(meta: Dict, ps: seq<Patch>, key: Key)
    ensures var r := PatchAll(meta, ps);
      && ((forall i :: 0 <= i < |ps| ==> ps[i].key != key) ==>
            (key in r <==> key in meta) && (key in r ==> r[key] == meta[key]))
      && (forall i :: 0 <= i < |ps| && ps[i].key == key && (forall j :: i < j < |ps| ==> ps[j].key != key) ==>
            (key in r <==> !ps[i].value.JNull?) && (key in r ==> r[key] == ps[i].value))
  {
    if ps != [] {
      var n := |ps| - 1;
      PatchedReads(meta, ps[..n], key);
      assert forall i :: 0 <= i < n ==> ps[..n][i] == ps[i];
      if ps[n].key != key {
        forall i | 0 <= i < |ps| && ps[i].key == key && (forall j :: i < j < |ps| ==> ps[j].key != key)
          ensures var r := PatchAll(meta, ps);
            (key in r <==> !ps[i].value.JNull?) && (key in r ==> r[key] == ps[i].value)
        {
          assert ps[..n][i].key == key && forall j :: i < j < n ==> ps[..n][j].key != key;
        }
      }
    }
  }

  predicate CancellationRequested(input: Dict) {
    CancellationRequestedKey in ReadMeta(input) && Truthy(ReadMeta(input)[CancellationRequestedKey])
  }

  lemma PatchTwo(meta: Dict, a: Patch, b: Patch)
    ensures PatchAll(meta, [a, b]) == PatchOne(PatchOne(meta, a), b)
  {
    assert [a, b][..1] == [a] && [a][..0] == [];
    assert PatchAll(meta, [a]) == PatchOne(PatchAll(meta, []), a);
  }

  lemma PatchThree(meta: Dict, a: Patch, b: Patch, c: Patch)
    ensures PatchAll(meta, [a, b, c]) == PatchOne(PatchOne(PatchOne(meta, a), b), c)
  {
    assert [a, b, c][..2] == [a, b];
    PatchTwo(meta, a, b);
  }

  function QueuedPatch(at: Time): seq<Patch> {
    [Patch(QueuedAtKey, JNum(at)), Patch(CancellationRequestedKey, JBool(false))]
  }

  function WorkerPatch(worker: string, at: Time): seq<Patch> {
    [Patch(WorkerIdKey, JStr(worker)), Patch(WorkerStartedAtKey, JNum(at))]
  }

  function WhyText(why: Why): Json {
    match why
    case FlagSeen => JStr("cancellation_requested")
    case AskedBy(text) => JStr(text)
  }

  function CancelPatch(reason: Why, at: Time): seq<Patch> {
    [Patch(CancellationRequestedKey, JBool(true)),
     Patch(CancellationRequestedAtKey, JNum(at)),
     Patch(CancellationReasonKey, WhyText(reason))]
  }

  function MarkQueued(input: Dict, at: Time): (r: Dict)
    ensures !CancellationRequested(r)
    ensures ReadMeta(r) == ReadMeta(input)[QueuedAtKey := JNum(at)][CancellationRequestedKey := JBool(false)]
    ensures r - {RuntimeMetaKey} == input - {RuntimeMetaKey}
  {
    PatchTwo(ReadMeta(input), QueuedPatch(at)[0], QueuedPatch(at)[1]);
    ApplyMeta(input, QueuedPatch(at))
  }

  function MarkWorkerStarted(input: Dict, worker: string, at: Time): (r: Dict)
    ensures CancellationRequested(r) <==> CancellationRequested(input)
    ensures ReadMeta(r) == ReadMeta(input)[WorkerIdKey := JStr(worker)][WorkerStartedAtKey := JNum(at)]
    ensures r - {RuntimeMetaKey} == input - {RuntimeMetaKey}
  {
    PatchTwo(ReadMeta(input), WorkerPatch(worker, at)[0], WorkerPatch(worker, at)[1]);
    ApplyMeta(input, WorkerPatch(worker, at))
  }

  function MarkCancelled(input: Dict, reason: Why, at: Time): (r: Dict)
    ensures CancellationRequested(r)
    ensures ReadMeta(r) ==
      ReadMeta(input)[CancellationRequestedKey := JBool(true)][CancellationRequestedAtKey := JNum(at)]
        [CancellationReasonKey := JStr(if reason.FlagSeen? then "cancellation_requested" else reason.text)]
    ensures r - {RuntimeMetaKey} == input - {RuntimeMetaKey}
  {
    var ps := CancelPatch(reason, at);
    PatchThree(ReadMeta(input), ps[0], ps[1], ps[2]);
    ApplyMeta(input, ps)
  }
}
