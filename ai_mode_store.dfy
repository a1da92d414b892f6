/** The per-user AI conversation mode both Telegram webhook routes keep in a
    process-wide map from the user id (as text) to a flag. */
module AiModeStore {
  import opened Text

  /** `get(userId) || false`: a user without an entry is not in AI mode. */
  function ModeOf(state: map<string, bool>, userId: string): (r: bool)
    ensures r <==> userId in state && state[userId]
    ensures userId !in state ==> !r
  {
    if userId in state then state[userId] else false
  }

  /** The routes only ever store `true`. */
  ghost predicate OnlyTrue(state: map<string, bool>) {
    forall u | u in state :: state[u]
  }

  /** Under the routes' invariant, having an entry and being in AI mode are
      the same thing. */
  lemma ModeIsMembership(state: map<string, bool>, userId: string)
    requires OnlyTrue(state)
    ensures ModeOf(state, userId) <==> userId in state
  {
  }

  const ExitCommands: seq<string> := ["/exit", "/stop", "/end"]

  /** The exit test: the whole text, lowercased, is one of the commands. */
  predicate IsExitCommand(text: string) {
    Lower(text) in ExitCommands
  }

  /** The exit test does not depend on letter case. */
  lemma ExitCommandIgnoresCase(text: string)
    ensures IsExitCommand(text) <==> IsExitCommand(Lower(text))
  {
    LowerIdempotent(text);
  }

  class ModeStore {
    var state: map<string, bool>

    constructor ()
      ensures state == map[]
    {
      state := map[];
    }

    /** `setUserAiMode` */
    method SetUserAiMode(userId: string, isAiMode: bool)
      modifies this
      ensures state == old(state)[userId := isAiMode]
    {
      state := state[userId := isAiMode];
    }

    /** `isUserInAiMode` */
    function IsUserInAiMode(userId: string): (r: bool)
      reads this
      ensures r <==> userId in state && state[userId]
    {
      ModeOf(state, userId)
    }

    /** `clearUserAiMode` */
    method ClearUserAiMode(userId: string)
      modifies this
      ensures state == old(state) - {userId}
    {
      state := state - {userId};
    }
  }
}
