/** Turning two consecutive snapshots into the events the application
    reacts to (src/event.rs). */
module Events {
  import opened Melee

  /** `Event`: joining a match carries the snapshot of the current match;
      leaving carries nothing. */
  datatype Event = GameJoin(info: GameInfo) | GameLeave

  /** `Detect<Event> for GameInfo`: leaving a match for a menu is a
      `GameLeave`, entering a match from a menu is a `GameJoin` of the current
      snapshot, and every other pair of statuses yields no event. */
  function Detect(previous: GameInfo, current: GameInfo): (events: seq<Event>)
    ensures |events| <= 1
    ensures events == [GameLeave] <==> previous.status == InGame && current.status == InMenu
    ensures events == [GameJoin(current)] <==> previous.status == InMenu && current.status == InGame
    ensures events == [] <==> !(previous.status == InGame && current.status == InMenu) && !(previous.status == InMenu && current.status == InGame)
  {
    match (previous.status, current.status)
    case (InGame, InMenu) => [GameLeave]
    case (InMenu, InGame) => [GameJoin(current)]
    case _ => []
  }

  /** A snapshot whose status did not change yields nothing, whatever the
      stage or the clock. */
  lemma SameStatusNoEvents(previous: GameInfo, current: GameInfo)
    requires previous.status == current.status
    ensures Detect(previous, current) == []
  {
  }

  /** The payload of a join is the new snapshot, so its stage is the current
      stage. */
  lemma JoinCarriesNewStage(previous: GameInfo, current: GameInfo)
    requires |Detect(previous, current)| == 1 && Detect(previous, current)[0].GameJoin?
    ensures Detect(previous, current)[0].info == current
    ensures Detect(previous, current)[0].info.stage == current.stage
  {
  }

  /** The previous snapshot enters only through its status, and the new one only
      through its status and as the payload of a join. */
  lemma DetectDependsOnlyOnStatuses(previous: GameInfo, previous': GameInfo, current: GameInfo, current': GameInfo)
    requires previous.status == previous'.status && current.status == current'.status
    ensures Detect(previous, current) == Detect(previous', current)
    ensures |Detect(previous, current)| == |Detect(previous', current')|
    ensures Detect(previous, current) == [GameLeave] <==> Detect(previous', current') == [GameLeave]
    ensures Detect(previous, current) == [GameJoin(current)] <==> Detect(previous', current') == [GameJoin(current')]
  {
  }

  /** A paused snapshot, on either side, never produces an event. */
  lemma PausedNoEvents(previous: GameInfo, current: GameInfo)
    requires previous.status == Paused || current.status == Paused
    ensures Detect(previous, current) == []
  {
  }
}
