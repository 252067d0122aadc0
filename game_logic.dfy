/**
 * The inline state queries of `GameLogic`,
 * Generals/Code/GameEngine/Include/GameLogic/GameLogic.h: the game mode and
 * its predicates, the rank-level limit, the object-ID counter and the lookup
 * of an object by its ID.
 *
 * An `Object *` is modelled by the object's address, a `nat`; `NULL` is `None`.
 */
module GameLogicState {
  import opened Wrappers

  /** The game-mode enum, in declaration order. */
  const GameSinglePlayer: int := 0
  const GameLan: int := 1
  const GameSkirmish: int := 2
  const GameReplay: int := 3
  const GameShell: int := 4
  const GameInternet: int := 5
  const GameNone: int := 6

  /** `INVALID_ID`, the object ID no object carries. */
  const InvalidId: int := 0

  /**
   * The limit `setRankLevelLimit` stores for a requested `limit`: the
   * smallest value that is at least 1 and at least `limit`.
   */
  function ClampedRankLimit(limit: int): (r: int)
    ensures r >= 1 && r >= limit
    ensures r == limit || r == 1
  {
    if limit < 1 then 1 else limit
  }

  /** The part of `GameLogic` these members read and write. */
  class GameLogic {
    /** `m_gameMode`: an `Int`, normally one of the mode constants. */
    var gameMode: int
    /** `m_rankLevelLimit`. */
    var rankLevelLimit: int
    /** `m_nextObjID`. */
    var nextObjId: int
    /** `m_objHash`: ObjectID to object. */
    var objects: map<int, nat>

    predicate IsInGame()
      reads this
    {
      !(gameMode == GameNone)
    }

    predicate IsInLanGame()
      reads this
    {
      gameMode == GameLan
    }

    predicate IsInSkirmishGame()
      reads this
    {
      gameMode == GameSkirmish
    }

    predicate IsInMultiplayerGame()
      reads this
    {
      gameMode == GameLan || gameMode == GameInternet
    }

    predicate IsInReplayGame()
      reads this
    {
      gameMode == GameReplay
    }

    predicate IsInInternetGame()
      reads this
    {
      gameMode == GameInternet
    }

    predicate IsInShellGame()
      reads this
    {
      gameMode == GameShell
    }

    function GetGameMode(): int
      reads this
    {
      gameMode
    }

    /** `setGameMode`: any `Int` is stored as given. */
    method SetGameMode(mode: int)
      modifies this
      ensures GetGameMode() == mode
      ensures rankLevelLimit == old(rankLevelLimit) && nextObjId == old(nextObjId) && objects == old(objects)
    {
      gameMode := mode;
    }

    function GetRankLevelLimit(): int
      reads this
    {
      rankLevelLimit
    }

    /** `setRankLevelLimit`: a limit below 1 is raised to 1. */
    method SetRankLevelLimit(limit: int)
      modifies this
      ensures GetRankLevelLimit() == ClampedRankLimit(limit)
      ensures gameMode == old(gameMode) && nextObjId == old(nextObjId) && objects == old(objects)
    {
      var l := limit;
      if l < 1 {
        l := 1;
      }
      rankLevelLimit := l;
    }

    function GetObjectIdCounter(): int
      reads this
    {
      nextObjId
    }

    /** `setObjectIDCounter`. */
    method SetObjectIdCounter(nextId: int)
      modifies this
      ensures GetObjectIdCounter() == nextId
      ensures gameMode == old(gameMode) && rankLevelLimit == old(rankLevelLimit) && objects == old(objects)
    {
      nextObjId := nextId;
    }

    /**
     * `findObjectByID`: `INVALID_ID` finds nothing without looking at the
     * table; any other ID finds its table entry, or nothing.
     */
    function FindObjectById(id: int): (r: Option<nat>)
      reads this
      ensures id == InvalidId ==> r == None
      ensures id != InvalidId ==> (r.Some? <==> id in objects)
      ensures r.Some? ==> id in objects && r.value == objects[id]
    {
      if id == InvalidId then None
      else if id in objects then Some(objects[id])
      else None
    }
  }

  /** The named single-mode predicates test distinct values: at most one holds. */
  lemma ModePredicatesExclusive(g: GameLogic)
    ensures var held := [g.IsInLanGame(), g.IsInSkirmishGame(), g.IsInReplayGame(),
                         g.IsInInternetGame(), g.IsInShellGame()];
            forall i, j :: 0 <= i < j < |held| ==> !(held[i] && held[j])
  {
  }

  /**
   * A multiplayer game is exactly a LAN or an Internet game, and every such
   * game, like every named mode other than `GAME_NONE`, is "in game".
   */
  lemma MultiplayerIsLanOrInternet(g: GameLogic)
    ensures g.IsInMultiplayerGame() <==> g.IsInLanGame() || g.IsInInternetGame()
    ensures g.IsInMultiplayerGame() ==> g.IsInGame()
    ensures g.IsInSkirmishGame() || g.IsInReplayGame() || g.IsInShellGame() ==> g.IsInGame()
    ensures !g.IsInGame() <==> g.GetGameMode() == GameNone
  {
  }

  /** The stored limit is the requested one whenever that is already at least 1. */
  lemma RankLimitKeepsValidRequests(limit: int)
    ensures ClampedRankLimit(limit) == limit <==> limit >= 1
    ensures ClampedRankLimit(ClampedRankLimit(limit)) == ClampedRankLimit(limit)
  {
  }

  /** An object registered under `INVALID_ID` can never be found. */
  lemma InvalidIdNeverFound(g: GameLogic)
    requires InvalidId in g.objects
    ensures g.FindObjectById(InvalidId) == None
  {
  }

  /** Setting the mode, the limit or the counter leaves every lookup as it was. */
  method ModeChangeKeepsLookups(g: GameLogic, mode: int, limit: int, nextId: int, id: int)
    returns (before: Option<nat>, after: Option<nat>)
    modifies g
    ensures before == after
    ensures g.GetGameMode() == mode && g.GetRankLevelLimit() >= 1 && g.GetObjectIdCounter() == nextId
  {
    before := g.FindObjectById(id);
    g.SetGameMode(mode);
    g.SetRankLevelLimit(limit);
    g.SetObjectIdCounter(nextId);
    after := g.FindObjectById(id);
  }
}
