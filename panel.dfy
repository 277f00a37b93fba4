/**
 * The roster of the webview (src/panel/main.ts): the module-level array
 * `activeChaoObjects` with the pending spawn name and the current gif size,
 * and the operations that spawn, delete, load, patch and list chao.
 *
 * Messages posted to the extension are recorded in `outbox`; time, random
 * draws, widths and generated element ids of each created chao come in as a
 * `CreationInput`.
 */
module Panel {
  import opened Wrappers
  import opened ChaoTypes
  import opened ChaoSpec
  import opened GifUriHelper
  import opened ChaoAgent
  import opened RosterSpec
  import opened StateVariants

  /** `MAX_CHAO`. */
  const MaxChao: nat := 10

  const MaxChaoWarning: string :=
    "Maximum number of chao reached (10). Please delete some chao before adding more."

  /**
   * What the host supplies for one new chao: the time, the draws for its type
   * and position, its generated element id, the widths, and the width of the
   * container element if there is one.
   */
  datatype CreationInput = CreationInput(now: int, typeDraw: real, positionDraw: real, elementId: string,
                                         view: Viewport, containerWidth: Option<real>)

  /** `lastSpawnName || 'Sammy'`. */
  function SpawnName(pending: Option<string>): (name: string)
    ensures name != ""
    ensures pending.Some? && pending.value != "" ==> name == pending.value
    ensures pending.None? || pending == Some("") ==> name == "Sammy"
  {
    if pending.Some? && pending.value != "" then pending.value else "Sammy"
  }

  class ChaoPanel {
    var activeChaoObjects: seq<Chao>
    var currentGifSize: ChaoSize
    var lastSpawnName: Option<string>
    /** The `vscodeShowWarningMessage` texts posted so far. */
    var outbox: seq<string>

    /** The objects on the roster. */
    function Roster(): set<Chao>
      reads this
    {
      set c | c in activeChaoObjects
    }

    /** The movement objects of the roster. */
    function Movements(): set<ChaoMovement>
      reads this
    {
      set c | c in activeChaoObjects :: c.movement
    }

    /** Every chao is valid, and no two chao share a movement object. */
    ghost predicate Valid()
      reads this, activeChaoObjects
    {
      && (forall c :: c in activeChaoObjects ==> c.Valid())
      && (forall c, d :: c in activeChaoObjects && d in activeChaoObjects && c != d ==> c.movement != d.movement)
    }

    constructor (initialGifSize: ChaoSize)
      ensures Valid() && activeChaoObjects == [] && lastSpawnName.None? && outbox == []
      ensures currentGifSize == initialGifSize
    {
      activeChaoObjects := [];
      currentGifSize := initialGifSize;
      lastSpawnName := None;
      outbox := [];
    }

    /** The spawn handlers' `lastSpawnName = message.name || null`. */
    method SetSpawnName(messageName: Option<string>)
      modifies this`lastSpawnName
      ensures lastSpawnName == NormalizeName(messageName)
    {
      lastSpawnName := NormalizeName(messageName);
    }

    /** `showMaxChaoWarning`: at the cap a warning is posted and the spawn refused. */
    method ShowMaxChaoWarning() returns (shown: bool)
      modifies this`outbox
      ensures shown <==> |activeChaoObjects| >= MaxChao
      ensures outbox == if shown then old(outbox) + [MaxChaoWarning] else old(outbox)
    {
      shown := |activeChaoObjects| >= MaxChao;
      if shown {
        outbox := outbox + [MaxChaoWarning];
      }
    }

    /**
     * `createRandomChao`: below the cap a chao of random type, named by the
     * pending name or "Sammy", is placed at random, animated and appended;
     * the pending name is cleared. At the cap nothing but the warning happens.
     */
    method CreateRandomChao(uris: ChaoTypeUris, registry: GifUriRegistry, input: CreationInput)
      returns (chao: Option<Chao>)
      requires Valid() && 0.0 <= input.typeDraw < 1.0
      modifies this
      ensures Valid()
      ensures old(|activeChaoObjects|) >= MaxChao ==>
        chao.None? && activeChaoObjects == old(activeChaoObjects) && lastSpawnName == old(lastSpawnName)
        && outbox == old(outbox) + [MaxChaoWarning]
      ensures old(|activeChaoObjects|) < MaxChao ==>
        chao.Some? && fresh(chao.value) && activeChaoObjects == old(activeChaoObjects) + [chao.value]
        && lastSpawnName.None? && outbox == old(outbox)
        && chao.value.name == Some(SpawnName(old(lastSpawnName)))
        && chao.value.chaoType in ChaoTypeValues
        && chao.value.currentPosition == RandomPosition(input.positionDraw, input.view.innerWidth, input.view)
        && chao.value.state == Idle(input.now) && chao.value.animationInterval
      ensures currentGifSize == old(currentGifSize)
    {
      var maxChaoWarningShown := ShowMaxChaoWarning();
      if maxChaoWarningShown {
        return None;
      }
      if lastSpawnName.None? || lastSpawnName == Some("") {
        lastSpawnName := Some("Sammy");
      }
      var c := new Chao(uris, currentGifSize, None, lastSpawnName, input.now, input.typeDraw, input.elementId);
      lastSpawnName := None;
      c.SetRandomPosition(input.positionDraw, input.view, registry, input.now);
      c.StartAnimation();
      Push(c);
      return Some(c);
    }

    /**
     * `createSpecificChao`: as `CreateRandomChao`, but of the given type (a
     * random one when it is empty) and named by the pending name only.
     */
    method CreateSpecificChao(uris: ChaoTypeUris, registry: GifUriRegistry, specificType: string,
                              input: CreationInput) returns (chao: Option<Chao>)
      requires Valid() && 0.0 <= input.typeDraw < 1.0
      modifies this
      ensures Valid()
      ensures old(|activeChaoObjects|) >= MaxChao ==>
        chao.None? && activeChaoObjects == old(activeChaoObjects) && lastSpawnName == old(lastSpawnName)
        && outbox == old(outbox) + [MaxChaoWarning]
      ensures old(|activeChaoObjects|) < MaxChao ==>
        chao.Some? && fresh(chao.value) && activeChaoObjects == old(activeChaoObjects) + [chao.value]
        && lastSpawnName.None? && outbox == old(outbox)
        && chao.value.name == NormalizeName(old(lastSpawnName))
        && chao.value.chaoType == InitialChaoType(Some(specificType), input.typeDraw)
        && chao.value.currentPosition == RandomPosition(input.positionDraw, input.view.innerWidth, input.view)
        && chao.value.state == Idle(input.now) && chao.value.animationInterval
      ensures currentGifSize == old(currentGifSize)
    {
      var maxChaoWarningShown := ShowMaxChaoWarning();
      if maxChaoWarningShown {
        return None;
      }
      var c := new Chao(uris, currentGifSize, Some(specificType), lastSpawnName, input.now, input.typeDraw,
                        input.elementId);
      lastSpawnName := None;
      c.SetRandomPosition(input.positionDraw, input.view, registry, input.now);
      c.StartAnimation();
      Push(c);
      return Some(c);
    }

    /** `activeChaoObjects.push(chao)`, for a chao whose movement object is its own. */
    method Push(chao: Chao)
      requires Valid() && chao.Valid() && chao.movement !in Movements()
      modifies this`activeChaoObjects
      ensures Valid() && activeChaoObjects == old(activeChaoObjects) + [chao]
    {
      activeChaoObjects := activeChaoObjects + [chao];
    }

    /**
     * `deleteChaoById`: the first chao with the id is stopped and removed, the
     * others keep their order and their activity; without such a chao nothing
     * changes.
     */
    method DeleteChaoById(chaoId: string) returns (deleted: bool)
      requires Valid()
      modifies this`activeChaoObjects, Roster()`animationInterval, Roster()`liveIntervals, Roster()`isHovered,
               Movements()`fallingTimer, Movements()`fallingMovementTimer, Movements()`lookAtCodeTimer
      ensures Valid()
      ensures var k := FirstIndex(old(Ids(activeChaoObjects)), chaoId);
        && deleted == k.Some?
        && (k.None? ==> activeChaoObjects == old(activeChaoObjects))
        && (k.Some? ==> activeChaoObjects == old(activeChaoObjects[..k.value] + activeChaoObjects[k.value + 1..]))
      ensures deleted ==> var c := old(activeChaoObjects)[FirstIndex(old(Ids(activeChaoObjects)), chaoId).value];
        c.Stopped() && c.movement.Fields() == MovementSpec.TimersCleared(old(c.movement.Fields()))
      ensures var k := FirstIndex(old(Ids(activeChaoObjects)), chaoId);
        forall c :: c in old(activeChaoObjects) && (k.None? || c != old(activeChaoObjects)[k.value]) ==>
          c.Activity() == old(c.Activity())
    {
      var ids := Ids(activeChaoObjects);
      var chaoIndex := 0;
      while chaoIndex < |activeChaoObjects| && activeChaoObjects[chaoIndex].id != chaoId
        invariant 0 <= chaoIndex <= |activeChaoObjects|
        invariant chaoId !in ids[..chaoIndex]
      {
        assert ids[..chaoIndex + 1] == ids[..chaoIndex] + [ids[chaoIndex]];
        chaoIndex := chaoIndex + 1;
      }
      if chaoIndex == |activeChaoObjects| {
        assert ids[..chaoIndex] == ids;
        return false;
      }
      var chao := activeChaoObjects[chaoIndex];
      FirstIndexAt(ids, chaoId, chaoIndex);
      chao.StopAnimation();
      activeChaoObjects := activeChaoObjects[..chaoIndex] + activeChaoObjects[chaoIndex + 1..];
      return true;
    }

    /**
     * `loadChaoFromState`: a chao of the record's type is created, restored
     * from the record, animated and appended. There is no cap here.
     */
    method LoadChaoFromState(data: ChaoSaveState, uris: ChaoTypeUris, registry: GifUriRegistry,
                             input: CreationInput) returns (chao: Chao)
      requires Valid() && 0.0 <= input.typeDraw < 1.0
      modifies this`activeChaoObjects
      ensures Valid() && fresh(chao)
      ensures activeChaoObjects == old(activeChaoObjects) + [chao]
      ensures chao.Serialize() == ChaoSaveState(data.id, data.chaoType, NormalizeName(data.name))
      ensures data.name != Some("") ==> chao.Serialize() == data
      ensures chao.currentPosition
              == RandomPosition(input.positionDraw, input.containerWidth.GetOr(input.view.innerWidth), input.view)
      ensures chao.state == Idle(input.now) && chao.animationInterval && chao.Valid()
    {
      chao := new Chao(uris, currentGifSize, Some(data.chaoType), None, input.now, input.typeDraw, input.elementId);
      chao.RestoreState(data, input.containerWidth, input.view, input.positionDraw, registry, input.now);
      chao.StartAnimation();
      Push(chao);
    }

    /**
     * `patchChaoState`: unless the roster already matches the records, the
     * chao without a record are stopped and dropped, the others keep their
     * order and go on running untouched, and every record not yet on the roster
     * is loaded, in record order, as a running chao restored from it.
     * `inputs[i]` serves the load of `records[i]`.
     */
    method PatchChaoState(records: seq<ChaoSaveState>, uris: ChaoTypeUris, registry: GifUriRegistry,
                          inputs: seq<CreationInput>)
      requires Valid()
      requires |inputs| == |records| && forall i :: 0 <= i < |inputs| ==> 0.0 <= inputs[i].typeDraw < 1.0
      modifies this`activeChaoObjects, Roster()`animationInterval, Roster()`liveIntervals, Roster()`isHovered,
               Movements()`fallingTimer, Movements()`fallingMovementTimer, Movements()`lookAtCodeTimer
      ensures Valid()
      ensures Ids(activeChaoObjects) == PatchedIds(old(Ids(activeChaoObjects)), records)
      ensures !HasChanges(old(Ids(activeChaoObjects)), RecordIds(records)) ==>
                activeChaoObjects == old(activeChaoObjects)
                && forall c :: c in old(activeChaoObjects) ==> c.Activity() == old(c.Activity())
      ensures HasChanges(old(Ids(activeChaoObjects)), RecordIds(records)) ==>
        var kept := Select(old(activeChaoObjects), old(Ids(activeChaoObjects)), RecordIds(records));
        && |kept| <= |activeChaoObjects| && activeChaoObjects[..|kept|] == kept
        && Animating(activeChaoObjects, |kept|)
        && RestoredFrom(activeChaoObjects, |kept|,
                        ToLoad(FilterIds(old(Ids(activeChaoObjects)), RecordIds(records)), records))
      ensures forall c :: c in old(activeChaoObjects) && c.id in RecordIds(records) ==> c.Activity() == old(c.Activity())
      ensures StoppedUnless(old(activeChaoObjects), RecordIds(records))
    {
      var currentChaoIds := Ids(activeChaoObjects);
      var newChaoIds := RecordIds(records);
      if !HasChanges(currentChaoIds, newChaoIds) {
        forall c | c in activeChaoObjects ensures c.id in newChaoIds {
          var k :| 0 <= k < |activeChaoObjects| && activeChaoObjects[k] == c;
          assert currentChaoIds[k] == c.id;
        }
        return;
      }
      DropUnrecorded(newChaoIds);
      ghost var kept := activeChaoObjects;
      LoadMissing(records, uris, registry, inputs);
      assert Ids(activeChaoObjects) == Ids(kept) + RecordIds(ToLoad(Ids(kept), records));
    }

    /** The two removal steps of `patchChaoState`: the chao without a record are stopped, then dropped. */
    method DropUnrecorded(keep: seq<string>)
      requires Valid()
      modifies this`activeChaoObjects, Roster()`animationInterval, Roster()`liveIntervals, Roster()`isHovered,
               Movements()`fallingTimer, Movements()`fallingMovementTimer, Movements()`lookAtCodeTimer
      ensures Valid()
      ensures activeChaoObjects == Select(old(activeChaoObjects), old(Ids(activeChaoObjects)), keep)
      ensures Ids(activeChaoObjects) == FilterIds(old(Ids(activeChaoObjects)), keep)
      ensures StoppedUnless(old(activeChaoObjects), keep)
      ensures forall c :: c in old(activeChaoObjects) && c.id in keep ==> c.Activity() == old(c.Activity())
    {
      ghost var roster := activeChaoObjects;
      ghost var ids := Ids(activeChaoObjects);
      StopUnrecorded(keep);
      assert Ids(roster) == ids;
      KeepRecorded(keep);
      assert activeChaoObjects == Select(roster, ids, keep);
      SelectedIds(roster, keep);
    }

    /** The `chaoToRemove` step: every chao whose id is not in `keep` is stopped, the others left alone. */
    method StopUnrecorded(keep: seq<string>)
      requires Valid()
      modifies Roster()`animationInterval, Roster()`liveIntervals, Roster()`isHovered,
               Movements()`fallingTimer, Movements()`fallingMovementTimer, Movements()`lookAtCodeTimer
      ensures Valid()
      ensures StoppedUnless(activeChaoObjects, keep)
      ensures forall c :: c in activeChaoObjects && c.id in keep ==> c.Activity() == old(c.Activity())
    {
      var i := 0;
      while i < |activeChaoObjects|
        invariant 0 <= i <= |activeChaoObjects|
        invariant Valid()
        invariant forall c :: c in activeChaoObjects[..i] && c.id !in keep ==> c.Stopped()
        invariant forall c :: c in activeChaoObjects && c.id in keep ==> c.Activity() == old(c.Activity())
      {
        var chao := activeChaoObjects[i];
        if chao.id !in keep {
          chao.StopAnimation();
        }
        assert activeChaoObjects[..i + 1] == activeChaoObjects[..i] + [chao];
        i := i + 1;
      }
      assert activeChaoObjects[..i] == activeChaoObjects;
    }

    /** The `remainingChao` step: the roster becomes its chao whose id is in `keep`, in order. */
    method KeepRecorded(keep: seq<string>)
      requires Valid()
      modifies this`activeChaoObjects
      ensures Valid()
      ensures activeChaoObjects == Select(old(activeChaoObjects), Ids(old(activeChaoObjects)), keep)
    {
      var roster := activeChaoObjects;
      var ids := Ids(roster);
      var remainingChao: seq<Chao> := [];
      var i := 0;
      while i < |roster|
        invariant 0 <= i <= |roster|
        invariant remainingChao == Select(roster[..i], ids[..i], keep)
      {
        assert roster[..i + 1][..i] == roster[..i];
        assert ids[..i + 1][..i] == ids[..i];
        if roster[i].id in keep {
          remainingChao := remainingChao + [roster[i]];
        }
        i := i + 1;
      }
      assert roster[..i] == roster && ids[..i] == ids;
      activeChaoObjects := remainingChao;
    }

    /** The final loop of `patchChaoState`: each record whose id is not on the roster yet is loaded. */
    method LoadMissing(records: seq<ChaoSaveState>, uris: ChaoTypeUris, registry: GifUriRegistry,
                       inputs: seq<CreationInput>)
      requires Valid()
      requires |inputs| == |records| && forall i :: 0 <= i < |inputs| ==> 0.0 <= inputs[i].typeDraw < 1.0
      modifies this`activeChaoObjects
      ensures Valid()
      ensures |old(activeChaoObjects)| <= |activeChaoObjects|
      ensures activeChaoObjects[..|old(activeChaoObjects)|] == old(activeChaoObjects)
      ensures Ids(activeChaoObjects) == old(Ids(activeChaoObjects)) + RecordIds(ToLoad(old(Ids(activeChaoObjects)), records))
      ensures Animating(activeChaoObjects, |old(activeChaoObjects)|)
      ensures RestoredFrom(activeChaoObjects, |old(activeChaoObjects)|, ToLoad(old(Ids(activeChaoObjects)), records))
    {
      ghost var present := Ids(activeChaoObjects);
      ghost var prefix := activeChaoObjects;
      var i := 0;
      while i < |records|
        invariant 0 <= i <= |records|
        invariant |prefix| <= |activeChaoObjects| && activeChaoObjects[..|prefix|] == prefix
        invariant Ids(activeChaoObjects) == present + RecordIds(ToLoad(present, records[..i]))
        invariant Animating(activeChaoObjects, |prefix|)
        invariant RestoredFrom(activeChaoObjects, |prefix|, ToLoad(present, records[..i]))
        invariant Valid()
      {
        ghost var idsBefore := Ids(activeChaoObjects);
        var loaded := LoadIfMissing(records[i], uris, registry, inputs[i], prefix, ToLoad(present, records[..i]));
        ToLoadStep(present, records, i, idsBefore, Ids(activeChaoObjects), loaded);
        i := i + 1;
      }
      assert records[..i] == records;
    }

    /**
     * One step of that loop: `find` the record's id on the roster and load the
     * record if it is absent. `prefix` is the part of the roster the loop keeps
     * and `done` the records it has loaded so far.
     */
    method LoadIfMissing(data: ChaoSaveState, uris: ChaoTypeUris, registry: GifUriRegistry, input: CreationInput,
                         ghost prefix: seq<Chao>, ghost done: seq<ChaoSaveState>)
      returns (loaded: bool)
      requires Valid() && 0.0 <= input.typeDraw < 1.0
      requires |prefix| <= |activeChaoObjects| && activeChaoObjects[..|prefix|] == prefix
      requires Animating(activeChaoObjects, |prefix|)
      requires RestoredFrom(activeChaoObjects, |prefix|, done)
      modifies this`activeChaoObjects
      ensures Valid()
      ensures |prefix| <= |activeChaoObjects| && activeChaoObjects[..|prefix|] == prefix
      ensures Animating(activeChaoObjects, |prefix|)
      ensures RestoredFrom(activeChaoObjects, |prefix|, done + (if loaded then [data] else []))
      ensures loaded <==> data.id !in old(Ids(activeChaoObjects))
      ensures Ids(activeChaoObjects) == old(Ids(activeChaoObjects)) + (if loaded then [data.id] else [])
    {
      loaded := data.id !in Ids(activeChaoObjects);
      if loaded {
        ghost var before := activeChaoObjects;
        ghost var beforeIds := Ids(activeChaoObjects);
        var chao := LoadChaoFromState(data, uris, registry, input);
        assert Ids(before) == beforeIds;
        assert activeChaoObjects[..|prefix|] == before[..|prefix|];
        var rs := done + [data];
        forall j | |prefix| <= j < |activeChaoObjects|
          ensures activeChaoObjects[j].animationInterval
          ensures activeChaoObjects[j].Serialize() == Normalized(rs[j - |prefix|])
        {
          if j < |before| {
            assert activeChaoObjects[j] == before[j];
            assert rs[j - |prefix|] == done[j - |prefix|];
          }
        }
      } else {
        assert done + [] == done;
      }
    }

    /** `serializeChaoState`: one record per chao, in roster order. */
    method SerializeChaoState() returns (records: seq<ChaoSaveState>)
      ensures |records| == |activeChaoObjects|
      ensures forall i :: 0 <= i < |records| ==> records[i] == activeChaoObjects[i].Serialize()
      ensures RecordIds(records) == Ids(activeChaoObjects)
    {
      records := [];
      var i := 0;
      while i < |activeChaoObjects|
        invariant 0 <= i <= |activeChaoObjects| && |records| == i
        invariant forall j :: 0 <= j < i ==> records[j] == activeChaoObjects[j].Serialize()
      {
        records := records + [activeChaoObjects[i].Serialize()];
        i := i + 1;
      }
    }

    /**
     * `getActiveChaoList`: one entry per chao, in roster order, with a falsy
     * name listed as none. On a valid roster it equals the serialised state.
     */
    method GetActiveChaoList() returns (list: seq<ChaoSaveState>)
      ensures |list| == |activeChaoObjects|
      ensures forall i :: 0 <= i < |list| ==>
        var c := activeChaoObjects[i];
        list[i] == ChaoSaveState(c.id, c.chaoType, NormalizeName(c.name))
      ensures Valid() ==> forall i :: 0 <= i < |list| ==> list[i] == activeChaoObjects[i].Serialize()
    {
      list := [];
      var i := 0;
      while i < |activeChaoObjects|
        invariant 0 <= i <= |activeChaoObjects| && |list| == i
        invariant forall j :: 0 <= j < i ==>
          list[j] == ChaoSaveState(activeChaoObjects[j].id, activeChaoObjects[j].chaoType,
                                   NormalizeName(activeChaoObjects[j].name))
      {
        var chao := activeChaoObjects[i];
        list := list + [ChaoSaveState(chao.id, chao.chaoType, NormalizeName(chao.name))];
        i := i + 1;
      }
      forall j | 0 <= j < |list| && Valid() ensures list[j] == activeChaoObjects[j].Serialize() {
        assert activeChaoObjects[j] in activeChaoObjects;
      }
    }
  }
}
