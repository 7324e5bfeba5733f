/** The enemy fleet of enemy-manager.js: a list of enemy ships, grown one ship at a time
    by a callback chain (the next ship is created only when the previous one's model has
    loaded), queried by id, moved every frame, and shrunk by an id filter when a ship is
    removed, either at once or when its death animation finishes. */
module Fleet {
  import opened Common
  import opened EnemyShips

  /** `enemyNumber`: the spawn chain stops at this index. */
  const EnemyNumber: nat := 10

  // ---------------------------------------------------------------------------
  // The id filter, on sequences of ships (ids are constant, so no heap is read)

  /** `enemies.some((i) => i.id === id)`. */
  predicate HasId(es: seq<EnemyShip>, id: int) {
    exists i :: 0 <= i < |es| && es[i].id == id
  }

  /** `enemies.filter((i) => i.id !== id)`: every entry with that id is dropped, every
      other entry is kept. */
  function FilterOutId(es: seq<EnemyShip>, id: int): (r: seq<EnemyShip>)
    ensures !HasId(r, id)
    ensures |r| <= |es|
    ensures HasId(es, id) ==> |r| < |es|
    decreases |es|
  {
    if es == [] then []
    else
      var rest := FilterOutId(es[1..], id);
      var r := if es[0].id == id then rest else [es[0]] + rest;
      assert HasId(es, id) ==> es[0].id == id || HasId(es[1..], id) by {
        if HasId(es, id) && es[0].id != id {
          var k :| 0 <= k < |es| && es[k].id == id;
          assert es[1..][k - 1] == es[k];
        }
      }
      r
  }

  /** The filter keeps exactly the entries whose id differs. */
  lemma {:induction false} FilterOutIdMembers(es: seq<EnemyShip>, id: int)
    ensures forall k :: 0 <= k < |FilterOutId(es, id)| ==> FilterOutId(es, id)[k] in es && FilterOutId(es, id)[k].id != id
    ensures forall k :: 0 <= k < |es| && es[k].id != id ==> es[k] in FilterOutId(es, id)
    decreases |es|
  {
    if es != [] {
      FilterOutIdMembers(es[1..], id);
      var rest := FilterOutId(es[1..], id);
      assert forall k :: 1 <= k < |es| ==> es[k] == es[1..][k - 1];
      assert forall k :: 0 <= k < |rest| ==> rest[k] in es[1..];
    }
  }

  /** Filtering distributes over concatenation. */
  lemma {:induction false} FilterOutIdConcat(a: seq<EnemyShip>, b: seq<EnemyShip>, id: int)
    ensures FilterOutId(a + b, id) == FilterOutId(a, id) + FilterOutId(b, id)
    decreases |a|
  {
    if a == [] {
      assert a + b == b;
    } else {
      assert (a + b)[1..] == a[1..] + b;
      FilterOutIdConcat(a[1..], b, id);
    }
  }

  /** Filtering by an id no entry carries changes nothing; in particular filtering twice
      by the same id is filtering once. */
  lemma {:induction false} FilterOutAbsentId(es: seq<EnemyShip>, id: int)
    requires !HasId(es, id)
    ensures FilterOutId(es, id) == es
    decreases |es|
  {
    if es != [] {
      assert es[0].id != id;
      assert !HasId(es[1..], id) by {
        forall k | 0 <= k < |es[1..]| ensures es[1..][k].id != id {
          assert es[1..][k] == es[k + 1];
        }
      }
      FilterOutAbsentId(es[1..], id);
    }
  }

  lemma FilterOutIdIdempotent(es: seq<EnemyShip>, id: int)
    ensures FilterOutId(FilterOutId(es, id), id) == FilterOutId(es, id)
  {
    FilterOutAbsentId(FilterOutId(es, id), id);
  }

  /** A kept entry lands right after the kept entries that preceded it. */
  lemma FilterKeepsPosition(es: seq<EnemyShip>, id: int, i: nat)
    requires i < |es| && es[i].id != id
    ensures |FilterOutId(es[..i], id)| < |FilterOutId(es, id)|
    ensures FilterOutId(es, id)[|FilterOutId(es[..i], id)|] == es[i]
  {
    assert es == es[..i] + es[i..];
    FilterOutIdConcat(es[..i], es[i..], id);
    assert es[i..] == [es[i]] + es[i + 1..];
    FilterOutIdConcat([es[i]], es[i + 1..], id);
  }

  /** Kept entries keep their relative order: of two kept entries, the earlier one in
      the list is earlier in the filtered list. */
  lemma FilterKeepsOrder(es: seq<EnemyShip>, id: int, i: nat, j: nat)
    requires i < j < |es| && es[i].id != id && es[j].id != id
    ensures |FilterOutId(es[..i], id)| < |FilterOutId(es[..j], id)| < |FilterOutId(es, id)|
    ensures FilterOutId(es, id)[|FilterOutId(es[..i], id)|] == es[i]
    ensures FilterOutId(es, id)[|FilterOutId(es[..j], id)|] == es[j]
  {
    FilterKeepsPosition(es, id, i);
    FilterKeepsPosition(es, id, j);
    assert es[..j] == es[..i] + es[i..j];
    FilterOutIdConcat(es[..i], es[i..j], id);
    assert es[i..j] == [es[i]] + es[i + 1..j];
    FilterOutIdConcat([es[i]], es[i + 1..j], id);
  }

  /** No ship occurs twice in the list. */
  predicate Distinct(es: seq<EnemyShip>) {
    forall i, j :: 0 <= i < j < |es| ==> es[i] != es[j]
  }

  lemma {:induction false} FilterKeepsDistinct(es: seq<EnemyShip>, id: int)
    requires Distinct(es)
    ensures Distinct(FilterOutId(es, id))
    decreases |es|
  {
    if es != [] {
      assert Distinct(es[1..]) by {
        forall i, j | 0 <= i < j < |es[1..]| ensures es[1..][i] != es[1..][j] {
          assert es[1..][i] == es[i + 1] && es[1..][j] == es[j + 1];
        }
      }
      FilterKeepsDistinct(es[1..], id);
      var rest := FilterOutId(es[1..], id);
      FilterOutIdMembers(es[1..], id);
      if es[0].id != id {
        assert es[0] !in es[1..] by {
          forall k | 0 <= k < |es[1..]| ensures es[1..][k] != es[0] {
            assert es[1..][k] == es[k + 1];
          }
        }
        assert es[0] !in rest by {
          forall k | 0 <= k < |rest| ensures rest[k] != es[0] {
            assert rest[k] in es[1..];
          }
        }
        var r := [es[0]] + rest;
        forall i, j | 0 <= i < j < |r| ensures r[i] != r[j] {
          if i == 0 {
            assert r[j] == rest[j - 1] && r[j] in rest;
          } else {
            assert r[i] == rest[i - 1] && r[j] == rest[j - 1];
          }
        }
      }
    }
  }

  /** Every ship but the last has its model (the last may still be loading). */
  ghost predicate LoadedExceptLast(es: seq<EnemyShip>)
    reads es`hasModel
  {
    forall i :: 0 <= i < |es| - 1 ==> es[i].hasModel
  }

  /** The filter keeps that shape: a ship of the filtered list without a model is its
      last entry and was the last entry before. */
  lemma FilterKeepsLoadedExceptLast(es: seq<EnemyShip>, id: int)
    requires LoadedExceptLast(es)
    ensures LoadedExceptLast(FilterOutId(es, id))
    ensures var r := FilterOutId(es, id);
      |r| > 0 && !r[|r| - 1].hasModel ==> |es| > 0 && r[|r| - 1] == es[|es| - 1]
  {
    if es != [] {
      var n := |es| - 1;
      assert es == es[..n] + [es[n]];
      FilterOutIdConcat(es[..n], [es[n]], id);
      var p := FilterOutId(es[..n], id);
      FilterOutIdMembers(es[..n], id);
      assert forall e :: e in p ==> e in es[..n];
      assert forall e :: e in es[..n] ==> e.hasModel;
      var r := FilterOutId(es, id);
      assert forall k :: 0 <= k < |p| ==> p[k] in p;
      assert forall k :: 0 <= k < |p| ==> r[k] == p[k];
    }
  }

  /** The positions of the given ships that have a model, in order: what addShip passes
      to getRandomPosition. */
  function ModelPositions(ships: seq<EnemyShip>): (ps: seq<Vec3>)
    reads ships`hasModel, ships`position
    ensures |ps| <= |ships|
    decreases |ships|
  {
    if ships == [] then []
    else (if ships[0].hasModel then [ships[0].position] else []) + ModelPositions(ships[1..])
  }

  /** ModelPositions holds the position of every ship with a model, and only those. */
  lemma {:induction false} ModelPositionsMembers(ships: seq<EnemyShip>)
    ensures var ps := ModelPositions(ships);
      && (forall k :: 0 <= k < |ships| && ships[k].hasModel ==> ships[k].position in ps)
      && (forall p :: p in ps ==> exists k :: 0 <= k < |ships| && ships[k].hasModel && ships[k].position == p)
    decreases |ships|
  {
    if ships != [] {
      ModelPositionsMembers(ships[1..]);
      assert forall k :: 1 <= k < |ships| ==> ships[k] == ships[1..][k - 1];
      var rest := ModelPositions(ships[1..]);
      forall p | p in ModelPositions(ships)
        ensures exists k :: 0 <= k < |ships| && ships[k].hasModel && ships[k].position == p
      {
        if p !in rest {
          assert ships[0].hasModel && ships[0].position == p;
        } else {
          var j :| 0 <= j < |ships[1..]| && ships[1..][j].hasModel && ships[1..][j].position == p;
          assert ships[j + 1] == ships[1..][j];
        }
      }
    }
  }

  /** The ships of a list that have a model (`enemies.filter((e) => e.model !== undefined)`). */
  function LoadedShips(es: seq<EnemyShip>): seq<EnemyShip>
    reads es`hasModel
    decreases |es|
  {
    if es == [] then []
    else (if es[0].hasModel then [es[0]] else []) + LoadedShips(es[1..])
  }

  /** LoadedShips keeps exactly the ships that have a model. */
  lemma {:induction false} LoadedShipsMembers(es: seq<EnemyShip>)
    ensures var r := LoadedShips(es);
      && (forall k :: 0 <= k < |r| ==> r[k] in es && r[k].hasModel)
      && (forall k :: 0 <= k < |es| && es[k].hasModel ==> es[k] in r)
    decreases |es|
  {
    if es != [] {
      LoadedShipsMembers(es[1..]);
      var rest := LoadedShips(es[1..]);
      var head := if es[0].hasModel then [es[0]] else [];
      assert LoadedShips(es) == head + rest;
      assert forall k :: 1 <= k < |es| ==> es[k] == es[1..][k - 1];
      assert forall k :: 0 <= k < |rest| ==> rest[k] in es[1..];
    }
  }

  /** The list as `update` leaves it after the mixers of the first `k` ships have run:
      each finished death animation has filtered its ship's id out. */
  function ListDuringUpdate(snapshot: seq<EnemyShip>, finishes: seq<bool>, k: nat): seq<EnemyShip>
    requires k <= |snapshot| == |finishes|
  {
    if k == 0 then snapshot
    else
      var before := ListDuringUpdate(snapshot, finishes, k - 1);
      if finishes[k - 1] then FilterOutId(before, snapshot[k - 1].id) else before
  }

  /** Some ship among the first `k` of the snapshot with id `id` has finished its death
      animation. */
  predicate DiedBy(snapshot: seq<EnemyShip>, finishes: seq<bool>, k: nat, id: int)
    requires k <= |snapshot| == |finishes|
  {
    exists m :: 0 <= m < k && finishes[m] && snapshot[m].id == id
  }

  /** Filtering one id out leaves every other id's presence as it was. */
  lemma FilterKeepsOtherIds(es: seq<EnemyShip>, x: int, id: int)
    requires x != id
    ensures HasId(FilterOutId(es, x), id) <==> HasId(es, id)
  {
    var r := FilterOutId(es, x);
    FilterOutIdMembers(es, x);
    if HasId(r, id) {
      var k :| 0 <= k < |r| && r[k].id == id;
      assert r[k] in es;
    }
    if HasId(es, id) {
      var k :| 0 <= k < |es| && es[k].id == id;
      assert es[k] in r;
    }
  }

  /** During `update`, an id is still registered exactly when it was at the start of the
      frame and no ship carrying it has finished its death animation so far. */
  lemma {:induction false} ListDuringUpdateHasId(snapshot: seq<EnemyShip>, finishes: seq<bool>, k: nat, id: int)
    requires k <= |snapshot| == |finishes|
    ensures HasId(ListDuringUpdate(snapshot, finishes, k), id) <==> HasId(snapshot, id) && !DiedBy(snapshot, finishes, k, id)
    decreases k
  {
    if k > 0 {
      ListDuringUpdateHasId(snapshot, finishes, k - 1, id);
      var before := ListDuringUpdate(snapshot, finishes, k - 1);
      assert DiedBy(snapshot, finishes, k, id) <==>
             DiedBy(snapshot, finishes, k - 1, id) || (finishes[k - 1] && snapshot[k - 1].id == id) by {
        if DiedBy(snapshot, finishes, k, id) {
          var m :| 0 <= m < k && finishes[m] && snapshot[m].id == id;
          assert m < k - 1 ==> DiedBy(snapshot, finishes, k - 1, id);
        }
        if DiedBy(snapshot, finishes, k - 1, id) {
          var m :| 0 <= m < k - 1 && finishes[m] && snapshot[m].id == id;
          assert 0 <= m < k;
        }
      }
      if finishes[k - 1] && snapshot[k - 1].id != id {
        FilterKeepsOtherIds(before, snapshot[k - 1].id, id);
      }
    }
  }

  /** What `update` does to one ship's motion: it moves (or attacks) only when the player
      and the player's position are present, and then as updateMovement says. */
  function ShipTurn(m: Motion, hasModel: bool, hostile: bool, registered: bool, playerPresent: bool,
                    playerPosition: Option<Vec3>, inp: MoveInput, deltaTime: real): (res: (Motion, Option<ShotRequest>))
    ensures !(hasModel && playerPresent && playerPosition.Some?) ==> res == (m, None)
    ensures hasModel && playerPresent && playerPosition.Some? ==>
              res == MovementStep(m, true, hostile, registered, playerPosition.value, inp, deltaTime)
  {
    if playerPresent && playerPosition.Some? then MovementStep(m, hasModel, hostile, registered, playerPosition.value, inp, deltaTime)
    else (m, None)
  }

  /** The turns of a frame's ships, in list order: ship `j` moves by ShipTurn from the
      motion `motions[j]` it had at the start of the frame, registered exactly when no
      ship with its id has finished dying up to and including its own mixer. */
  ghost function Turns(snapshot: seq<EnemyShip>, motions: seq<Motion>, statuses: seq<Status>, finishes: seq<bool>,
                       inputs: seq<MoveInput>, playerPresent: bool, playerPosition: Option<Vec3>, deltaTime: real,
                       k: nat): (ts: seq<(Motion, Option<ShotRequest>)>)
    requires k <= |snapshot| == |motions| == |statuses| == |finishes| == |inputs|
    ensures |ts| == k
    decreases k
  {
    if k == 0 then []
    else
      Turns(snapshot, motions, statuses, finishes, inputs, playerPresent, playerPosition, deltaTime, k - 1)
      + [ShipTurn(motions[k - 1], statuses[k - 1].hasModel, statuses[k - 1].isHostile,
                  !DiedBy(snapshot, finishes, k, snapshot[k - 1].id),
                  playerPresent, playerPosition, inputs[k - 1], deltaTime)]
  }

  lemma {:induction false} TurnsAt(snapshot: seq<EnemyShip>, motions: seq<Motion>, statuses: seq<Status>, finishes: seq<bool>,
                                   inputs: seq<MoveInput>, playerPresent: bool, playerPosition: Option<Vec3>, deltaTime: real,
                                   k: nat, j: nat)
    requires k <= |snapshot| == |motions| == |statuses| == |finishes| == |inputs| && j < k
    ensures Turns(snapshot, motions, statuses, finishes, inputs, playerPresent, playerPosition, deltaTime, k)[j]
         == ShipTurn(motions[j], statuses[j].hasModel, statuses[j].isHostile,
                     !DiedBy(snapshot, finishes, j + 1, snapshot[j].id),
                     playerPresent, playerPosition, inputs[j], deltaTime)
    decreases k
  {
    if j < k - 1 {
      TurnsAt(snapshot, motions, statuses, finishes, inputs, playerPresent, playerPosition, deltaTime, k - 1, j);
    }
  }

  /** Ship `e`, which had status `st`, has taken its turn `turn` of `update`: its motion
      and the shot it fired are the turn's, and of its status only `inScene` changed,
      cleared when its death animation finished. */
  ghost predicate TurnTaken(e: EnemyShip, st: Status, finish: bool, turn: (Motion, Option<ShotRequest>), shot: Option<ShotRequest>)
    reads e
  {
    && e.position == turn.0.position && e.destination == turn.0.destination && e.lastFireTime == turn.0.lastFireTime
    && e.inScene == (!finish && st.inScene) && shot == turn.1
  }

  ghost predicate Untouched(e: EnemyShip, m: Motion, st: Status)
    reads e
  {
    && e.position == m.position && e.destination == m.destination && e.lastFireTime == m.lastFireTime
    && e.health == st.health && e.isHostile == st.isHostile && e.animations == st.animations
    && e.hasModel == st.hasModel && e.healthBars == st.healthBars && e.inScene == st.inScene
    && e.hasMixer == st.hasMixer
  }

  // ---------------------------------------------------------------------------
  // The manager

  class EnemyManager {
    /** `this.enemies`, grown by push and replaced by filter. */
    var enemies: seq<EnemyShip>
    /** The index the spawn chain has reached: how many ships it has created. */
    var spawnIndex: nat
    /** The ship whose glTF load the chain is waiting for, if any. */
    var awaiting: Option<EnemyShip>
    /** `loadedEnemies` captured when the awaited ship was pushed. */
    var awaitingOthers: seq<EnemyShip>

    ghost function AwaitingSet(): set<EnemyShip>
      reads this
    {
      if awaiting.Some? then {awaiting.value} else {}
    }

    ghost predicate Valid()
      reads this, enemies`hasModel
    {
      && |enemies| <= spawnIndex <= EnemyNumber
      && Distinct(enemies)
      && LoadedExceptLast(enemies)
      && (|enemies| > 0 && !enemies[|enemies| - 1].hasModel ==> awaiting == Some(enemies[|enemies| - 1]))
      && (awaiting.Some? ==> spawnIndex > 0)
    }

    /** The constructor starts the spawn chain: the first ship is created and its load
        is awaited. */
    constructor (firstId: int)
      ensures Valid()
      ensures |enemies| == 1 && spawnIndex == 1 && awaiting == Some(enemies[0])
      ensures fresh(enemies[0]) && enemies[0].id == firstId
      ensures awaitingOthers == []
    {
      enemies, spawnIndex, awaiting, awaitingOthers := [], 0, None, [];
      new;
      AddNextEnemy(firstId);
    }

    /** addNextEnemy(spawnIndex): below the limit, push a new ship, capture the ships
        already loaded, and wait for the new ship's load; at the limit, the chain ends. */
    method AddNextEnemy(id: int)
      requires Valid()
      requires awaiting.None? || awaiting.value.hasModel
      modifies this
      ensures Valid()
      ensures old(spawnIndex) >= EnemyNumber ==>
                enemies == old(enemies) && spawnIndex == old(spawnIndex) && awaiting.None?
      ensures old(spawnIndex) < EnemyNumber ==>
                && spawnIndex == old(spawnIndex) + 1
                && |enemies| == |old(enemies)| + 1 && enemies[..|old(enemies)|] == old(enemies)
                && fresh(enemies[|enemies| - 1]) && awaiting == Some(enemies[|enemies| - 1])
                && enemies[|enemies| - 1].id == id && !enemies[|enemies| - 1].hasModel
                && awaitingOthers == LoadedShips(enemies)
    {
      if spawnIndex >= EnemyNumber {
        awaiting := None;
        return;
      }
      var e := new EnemyShip(id);
      PushKeepsShape(enemies, e);
      enemies := enemies + [e];
      awaitingOthers := LoadedShips(enemies);
      awaiting := Some(e);
      spawnIndex := spawnIndex + 1;
    }

    /** The load callback of the awaited ship: the ship is placed away from the ships
        loaded when it was pushed, and then the chain goes on. When the supplied draws
        run out the source's rejection sampler would not return, so the chain stops. */
    method ShipLoaded(clips: seq<nat>, loadedPosition: Vec3, draws: seq<Draw>, nextId: int) returns (placed: bool)
      requires Valid() && awaiting.Some?
      modifies this, awaiting.value
      ensures Valid()
      ensures placed <==> SpawnPosition(old(ModelPositions(awaitingOthers)), draws).Some?
      ensures old(awaiting).value.hasModel
      ensures placed ==> old(awaiting).value.position == SpawnPosition(old(ModelPositions(awaitingOthers)), draws).value
      ensures !placed ==> awaiting.None? && enemies == old(enemies)
      ensures placed && old(spawnIndex) >= EnemyNumber ==> awaiting.None? && enemies == old(enemies)
      ensures placed && old(spawnIndex) < EnemyNumber ==>
                && |enemies| == |old(enemies)| + 1 && enemies[..|old(enemies)|] == old(enemies)
                && fresh(enemies[|enemies| - 1]) && awaiting == Some(enemies[|enemies| - 1])
    {
      var e := awaiting.value;
      var others := ModelPositions(awaitingOthers);
      placed := e.AddShip(clips, loadedPosition, others, draws);
      if placed {
        AddNextEnemy(nextId);
      } else {
        awaiting := None;
      }
    }

    /** hasEnemies: the list is non-empty and its first ship has a model, which is then
        also the first of the loaded ships. */
    predicate HasEnemies(): (b: bool)
      reads this, enemies`hasModel
      ensures b ==> |LoadedShips(enemies)| > 0 && LoadedShips(enemies)[0] == enemies[0]
      ensures |enemies| == 0 ==> !b
    {
      |enemies| > 0 && enemies[0].hasModel
    }

    /** getMainEnemyPosition: the first ship's position (its model is a direct child of
        the scene, so its world position is its position), or null without enemies. */
    function MainEnemyPosition(): (p: Option<Vec3>)
      reads this, enemies`hasModel, enemies`position
      ensures p.None? <==> !HasEnemies()
      ensures p.Some? ==> |enemies| > 0 && enemies[0].hasModel && p.value == enemies[0].position
    {
      if !HasEnemies() then None else Some(enemies[0].position)
    }

    /** Two or more ships in the list mean the first is loaded, so hasEnemies holds. */
    lemma TwoShipsMeanHasEnemies()
      requires Valid() && |enemies| >= 2
      ensures HasEnemies() && MainEnemyPosition() == Some(enemies[0].position)
    {
    }

    /** isEnemyExists: some listed ship carries the id, which is exactly when filtering
        the id out (as the death listener does) would change the list. */
    predicate IsEnemyExists(id: int): (b: bool)
      reads this
      ensures b <==> FilterOutId(enemies, id) != enemies
    {
      if !HasId(enemies, id) then FilterOutAbsentId(enemies, id); false else true
    }

    /** removeEnemy: nothing for a ship without a model; a ship with an animation list
        gets a death-animation mixer and stays until it finishes; otherwise the ship
        leaves the scene and its id is filtered out at once. */
    method RemoveEnemy(e: EnemyShip)
      requires Valid()
      modifies this, e`hasMixer, e`inScene
      ensures Valid()
      ensures !old(e.hasModel) ==> enemies == old(enemies) && e.hasMixer == old(e.hasMixer) && e.inScene == old(e.inScene)
      ensures old(e.hasModel) && old(e.animations).Some? ==>
                enemies == old(enemies) && e.hasMixer && e.inScene == old(e.inScene)
      ensures old(e.hasModel) && old(e.animations).None? ==>
                enemies == FilterOutId(old(enemies), e.id) && !IsEnemyExists(e.id) && !e.inScene
                && e.hasMixer == old(e.hasMixer)
      ensures spawnIndex == old(spawnIndex) && awaiting == old(awaiting) && awaitingOthers == old(awaitingOthers)
    {
      if !e.hasModel {
        return;
      }
      if e.animations.Some? {
        e.hasMixer := true;
      } else {
        e.inScene := false;
        FilterKeepsDistinct(enemies, e.id);
        FilterKeepsLoadedExceptLast(enemies, e.id);
        enemies := FilterOutId(enemies, e.id);
      }
    }

    /** The mixer's "finished" listener: the ship leaves the scene and its id is
        filtered out. */
    method DeathAnimationFinished(e: EnemyShip)
      requires Valid() && e.hasMixer
      modifies this, e`inScene
      ensures Valid()
      ensures enemies == FilterOutId(old(enemies), e.id) && !IsEnemyExists(e.id) && !e.inScene
      ensures spawnIndex == old(spawnIndex) && awaiting == old(awaiting) && awaitingOthers == old(awaitingOthers)
    {
      e.inScene := false;
      FilterKeepsDistinct(enemies, e.id);
      FilterKeepsLoadedExceptLast(enemies, e.id);
      enemies := FilterOutId(enemies, e.id);
    }

    /** update: each ship's mixer runs first (`finishes[i]` says whether ship i's death
        animation finishes in this step, firing the listener); then a ship with a model
        moves, when the player and its position are present. A ship asks whether it is
        registered against the list as it stands at that moment. `motions` and
        `statuses` name the ships' states at the start of the frame. */
    method Update(deltaTime: real, playerPresent: bool, playerPosition: Option<Vec3>,
                  inputs: seq<MoveInput>, finishes: seq<bool>,
                  ghost motions: seq<Motion>, ghost statuses: seq<Status>) returns (shots: seq<Option<ShotRequest>>)
      requires Valid()
      requires |inputs| == |enemies| == |finishes| == |motions| == |statuses|
      requires forall i {:trigger motions[i]} :: 0 <= i < |enemies| ==> Untouched(enemies[i], motions[i], statuses[i])
      requires forall i :: 0 <= i < |enemies| && finishes[i] ==> statuses[i].hasMixer
      modifies this, enemies`position, enemies`destination, enemies`lastFireTime, enemies`inScene
      ensures Valid()
      ensures enemies == ListDuringUpdate(old(enemies), finishes, |finishes|)
      ensures spawnIndex == old(spawnIndex) && awaiting == old(awaiting) && awaitingOthers == old(awaitingOthers)
      ensures |shots| == |old(enemies)|
      ensures var turns := Turns(old(enemies), motions, statuses, finishes, inputs, playerPresent, playerPosition, deltaTime, |finishes|);
        forall i {:trigger statuses[i]} :: 0 <= i < |old(enemies)| ==> TurnTaken(old(enemies)[i], statuses[i], finishes[i], turns[i], shots[i])
    {
      var snapshot := enemies;
      ghost var turns := Turns(snapshot, motions, statuses, finishes, inputs, playerPresent, playerPosition, deltaTime, |finishes|);
      shots := [];
      var i := 0;
      while i < |snapshot|
        invariant 0 <= i <= |snapshot| && |shots| == i
        invariant Valid() && snapshot == old(enemies) && Distinct(snapshot)
        invariant enemies == ListDuringUpdate(snapshot, finishes, i)
        invariant spawnIndex == old(spawnIndex) && awaiting == old(awaiting) && awaitingOthers == old(awaitingOthers)
        invariant forall j {:trigger motions[j]} :: i <= j < |snapshot| ==> Untouched(snapshot[j], motions[j], statuses[j])
        invariant forall j {:trigger statuses[j]} :: 0 <= j < i ==> TurnTaken(snapshot[j], statuses[j], finishes[j], turns[j], shots[j])
      {
        var shot := UpdateShip(snapshot[i], snapshot, i, finishes, deltaTime, playerPresent, playerPosition, inputs,
                               motions, statuses);
        shots := shots + [shot];
        i := i + 1;
      }
    }

    /** Ship `snapshot[k]`'s turn in `update`: its mixer, then its movement. */
    method UpdateShip(e: EnemyShip, ghost snapshot: seq<EnemyShip>, k: nat, finishes: seq<bool>, deltaTime: real,
                      playerPresent: bool, playerPosition: Option<Vec3>, inputs: seq<MoveInput>,
                      ghost motions: seq<Motion>, ghost statuses: seq<Status>)
      returns (shot: Option<ShotRequest>)
      requires Valid()
      requires k < |snapshot| == |finishes| == |inputs| == |motions| == |statuses|
      requires e == snapshot[k] && enemies == ListDuringUpdate(snapshot, finishes, k)
      requires Untouched(e, motions[k], statuses[k])
      requires finishes[k] ==> statuses[k].hasMixer
      modifies this, e`position, e`destination, e`lastFireTime, e`inScene
      ensures Valid()
      ensures enemies == ListDuringUpdate(snapshot, finishes, k + 1)
      ensures spawnIndex == old(spawnIndex) && awaiting == old(awaiting) && awaitingOthers == old(awaitingOthers)
      ensures TurnTaken(e, statuses[k], finishes[k],
                        Turns(snapshot, motions, statuses, finishes, inputs, playerPresent, playerPosition, deltaTime, |finishes|)[k], shot)
    {
      MixerStep(e, snapshot, k, finishes);
      shot := TakeTurn(e, IsEnemyExists(e.id), playerPresent, playerPosition, inputs, deltaTime,
                       snapshot, k, finishes, motions, statuses, statuses[k].(inScene := !finishes[k] && statuses[k].inScene));
    }

    /** The mixer of ship `snapshot[k]` during `update`: when its death animation
        finishes, the listener removes the ship. */
    method MixerStep(e: EnemyShip, ghost snapshot: seq<EnemyShip>, k: nat, finishes: seq<bool>)
      requires Valid()
      requires k < |snapshot| == |finishes| && e == snapshot[k] && enemies == ListDuringUpdate(snapshot, finishes, k)
      requires finishes[k] ==> e.hasMixer
      modifies this, e`inScene
      ensures Valid()
      ensures enemies == ListDuringUpdate(snapshot, finishes, k + 1)
      ensures spawnIndex == old(spawnIndex) && awaiting == old(awaiting) && awaitingOthers == old(awaitingOthers)
      ensures e.inScene == (!finishes[k] && old(e.inScene))
      ensures IsEnemyExists(e.id) == !DiedBy(snapshot, finishes, k + 1, e.id)
    {
      if finishes[k] {
        DeathAnimationFinished(e);
      }
      ListDuringUpdateHasId(snapshot, finishes, k + 1, e.id);
      assert HasId(snapshot, e.id);
    }
  }

  /** The movement part of ship `snapshot[k]`'s turn in `update`: the ship, registered
      as the list stands after its mixer ran, moves as its entry of Turns says. */
  method TakeTurn(e: EnemyShip, registered: bool, playerPresent: bool, playerPosition: Option<Vec3>, inputs: seq<MoveInput>,
                  deltaTime: real, ghost snapshot: seq<EnemyShip>, k: nat, ghost finishes: seq<bool>,
                  ghost motions: seq<Motion>, ghost statuses: seq<Status>, ghost st: Status) returns (shot: Option<ShotRequest>)
    requires k < |snapshot| == |finishes| == |inputs| == |motions| == |statuses| && e == snapshot[k]
    requires registered == !DiedBy(snapshot, finishes, k + 1, e.id)
    requires Untouched(e, motions[k], st) && st.hasModel == statuses[k].hasModel && st.isHostile == statuses[k].isHostile
    modifies e`position, e`destination, e`lastFireTime
    ensures var turn := Turns(snapshot, motions, statuses, finishes, inputs, playerPresent, playerPosition, deltaTime, |finishes|)[k];
      Untouched(e, turn.0, st) && shot == turn.1
  {
    TurnsAt(snapshot, motions, statuses, finishes, inputs, playerPresent, playerPosition, deltaTime, |finishes|, k);
    assert e.CurrentMotion() == motions[k];
    shot := None;
    if playerPresent && playerPosition.Some? {
      shot := e.UpdateMovement(deltaTime, registered, playerPosition.value, inputs[k]);
    }
  }

  /** Pushing a new ship without a model onto a list whose ships all have their models
      keeps the list free of repeats and leaves at most its last ship unloaded. */
  lemma PushKeepsShape(es: seq<EnemyShip>, e: EnemyShip)
    requires Distinct(es) && e !in es && !e.hasModel
    requires forall k :: 0 <= k < |es| ==> es[k].hasModel
    ensures Distinct(es + [e]) && LoadedExceptLast(es + [e])
  {
    var r := es + [e];
    assert forall k :: 0 <= k < |es| ==> r[k] == es[k];
  }

  lemma LoadedShipsSnoc(es: seq<EnemyShip>, e: EnemyShip)
    requires !e.hasModel
    ensures LoadedShips(es + [e]) == LoadedShips(es)
    decreases |es|
  {
    if es == [] {
      assert es + [e] == [e];
      assert [e][1..] == [];
    } else {
      assert (es + [e])[1..] == es[1..] + [e];
      LoadedShipsSnoc(es[1..], e);
    }
  }
}
