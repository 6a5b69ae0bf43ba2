/** How the relational store keeps what has no column of its own: the execution mode inside
    the input, and step dependencies as JSON. */
module Storage {
  import opened Records

  datatype ExecutionMode = Interactive | Background

  const MODE_KEY := Field("__orch_execution_mode__")

  function ModeText(mode: ExecutionMode): string {
    match mode
    case Interactive => "interactive"
    case Background => "background"
  }

  function PersistInput(input: Dict, mode: ExecutionMode): Dict {
    input[MODE_KEY := JStr(ModeText(mode))]
  }

  /** A missing or unknown mode reads as background. */
  function RestoreMode(data: Dict): ExecutionMode {
    if MODE_KEY in data && data[MODE_KEY] == JStr("interactive") then Interactive else Background
  }

  function RestoreInput(data: Dict): Dict {
    data - {MODE_KEY}
  }

  /** The mode always survives storage; the input survives exactly when it does not use the
      reserved key itself. */
  lemma InputRoundTripIff(input: Dict, mode: ExecutionMode)
    ensures RestoreMode(PersistInput(input, mode)) == mode
    ensures RestoreInput(PersistInput(input, mode)) == input <==> MODE_KEY !in input
  {
    var data := PersistInput(input, mode);
    assert ModeText(Interactive)[0] == 'i' && ModeText(Background)[0] == 'b';
    if MODE_KEY in input {
      assert MODE_KEY !in RestoreInput(data);
    } else {
      assert RestoreInput(data) == input;
    }
  }

  const STEP_ID := Field("step_id")

  function DependenciesToJson(ids: seq<Id>): Json {
    JArr(seq(|ids|, i requires 0 <= i < |ids| => JObj(map[STEP_ID := JNum(ids[i])])))
  }

  /** Entries that are not objects with a step id are skipped. */
  function IdsIn(items: seq<Json>): seq<Id> {
    if items == [] then []
    else
      IdsIn(items[..|items| - 1]) + IdOf(items[|items| - 1])
  }

  function IdOf(item: Json): seq<Id> {
    if item.JObj? && STEP_ID in item.fields && item.fields[STEP_ID].JNum? && item.fields[STEP_ID].num >= 0
    then [item.fields[STEP_ID].num]
    else []
  }

  function DependenciesFromJson(raw: Json): seq<Id> {
    if !raw.JArr? then [] else IdsIn(raw.items)
  }

  lemma {:induction false} DependenciesRoundTrip(ids: seq<Id>)
    ensures DependenciesFromJson(DependenciesToJson(ids)) == ids
  {
    if ids != [] {
      var init := ids[..|ids| - 1];
      var items := DependenciesToJson(ids).items;
      assert items[..|items| - 1] == DependenciesToJson(init).items;
      DependenciesRoundTrip(init);
    }
  }
}
