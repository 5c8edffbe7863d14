/** The in-memory tables of mcp_server.py and what its handlers do to them.
    The HTTP layer is not modelled: each handler is a method of one object
    holding the four module-level dictionaries. Times are inputs, and so are
    the transactions `generate_sample_transactions` would draw at random. */
module McpTables {
  import opened Wrappers
  import opened Models

  /** The profile `get_user_profile` creates for an unknown user. */
  function DefaultProfile(userId: string, now: int): (p: UserProfile)
    ensures p.userId == userId && p.age == 10 && p.name == "New User"
  {
    UserProfile(userId, "New User", 10, ["reading", "games"], ["technology", "sports"], None, now)
  }

  /** `user_txns[:limit]`: a negative limit counts from the end, as Python slices do. */
  function TakeLimit<T>(xs: seq<T>, limit: int): (r: seq<T>)
    ensures |r| <= |xs| && r == xs[..|r|]
    ensures limit >= 0 ==> |r| == if limit < |xs| then limit else |xs|
    ensures limit < 0 ==> |r| == if -limit < |xs| then |xs| + limit else 0
  {
    if limit >= 0 then (if limit < |xs| then xs[..limit] else xs)
    else if -limit < |xs| then xs[..|xs| + limit] else []
  }

  class McpServer {
    var users: map<string, UserProfile>
    var transactions: map<string, seq<Transaction>>
    var quizHistory: map<string, seq<QuizHistory>>
    var gamification: map<string, GamificationData>

    /** The server at start-up, with the users of the sample file. */
    constructor (sampleUsers: map<string, UserProfile>)
      ensures users == sampleUsers
      ensures transactions == map[] && quizHistory == map[] && gamification == map[]
    {
      users := sampleUsers;
      transactions := map[];
      quizHistory := map[];
      gamification := map[];
    }

    /** `get_user_profile`: the stored profile, or a default one stored first. */
    method GetUserProfile(userId: string, now: int) returns (p: UserProfile)
      modifies this
      ensures userId in old(users) ==> p == old(users)[userId] && users == old(users)
      ensures userId !in old(users) ==> p == DefaultProfile(userId, now) && users == old(users)[userId := p]
      ensures userId in users && users[userId] == p
      ensures transactions == old(transactions) && quizHistory == old(quizHistory) && gamification == old(gamification)
    {
      if userId in users {
        return users[userId];
      }
      p := DefaultProfile(userId, now);
      users := users[userId := p];
    }

    /** `create_user_profile`: the profile is stored, and default gamification
        data is created only for a user who has none. */
    method CreateUserProfile(profile: UserProfile) returns (createdFor: string)
      modifies this
      ensures users == old(users)[profile.userId := profile]
      ensures profile.userId in old(gamification) ==> gamification == old(gamification)
      ensures profile.userId !in old(gamification) ==>
                gamification == old(gamification)[profile.userId := DefaultGamification(profile.userId)]
      ensures transactions == old(transactions) && quizHistory == old(quizHistory)
      ensures createdFor == profile.userId
    {
      users := users[profile.userId := profile];
      if profile.userId !in gamification {
        gamification := gamification[profile.userId := DefaultGamification(profile.userId)];
      }
      createdFor := profile.userId;
    }

    /** `get_transactions`: the stored list, or for a known user without any,
        the freshly drawn `samples`, which are then stored; at most `limit`
        of them are returned, from the front. */
    method GetTransactions(userId: string, limit: int, samples: seq<Transaction>) returns (txns: seq<Transaction>)
      modifies this
      ensures var stored := if userId in old(transactions) then old(transactions)[userId] else [];
              var drawn := stored == [] && userId in old(users);
              (drawn ==> transactions == old(transactions)[userId := samples] && txns == TakeLimit(samples, limit))
              && (!drawn ==> transactions == old(transactions) && txns == TakeLimit(stored, limit))
      ensures users == old(users) && quizHistory == old(quizHistory) && gamification == old(gamification)
    {
      var userTxns := if userId in transactions then transactions[userId] else [];
      if userTxns == [] && userId in users {
        userTxns := samples;
        transactions := transactions[userId := userTxns];
      }
      txns := TakeLimit(userTxns, limit);
    }

    /** `get_quiz_history`: the user's entries, or none for an unknown user. */
    function GetQuizHistory(userId: string): (h: seq<QuizHistory>)
      reads this
      ensures userId !in quizHistory ==> h == []
      ensures userId in quizHistory ==> h == quizHistory[userId]
    {
      if userId in quizHistory then quizHistory[userId] else []
    }

    /** `save_quiz_result`: one entry more at the end of that user's history,
        which is created when missing; every other history is unchanged. */
    method SaveQuizResult(entry: QuizHistory)
      modifies this
      ensures GetQuizHistory(entry.userId) == old(GetQuizHistory(entry.userId)) + [entry]
      ensures forall u :: u != entry.userId ==> GetQuizHistory(u) == old(GetQuizHistory(u))
      ensures quizHistory.Keys == old(quizHistory.Keys) + {entry.userId}
      ensures users == old(users) && transactions == old(transactions) && gamification == old(gamification)
    {
      if entry.userId !in quizHistory {
        quizHistory := quizHistory[entry.userId := []];
      }
      quizHistory := quizHistory[entry.userId := quizHistory[entry.userId] + [entry]];
    }

    /** `get_gamification_data`: the stored record, created with defaults when missing. */
    method GetGamificationData(userId: string) returns (g: GamificationData)
      modifies this
      ensures userId in old(gamification) ==> g == old(gamification)[userId] && gamification == old(gamification)
      ensures userId !in old(gamification) ==>
                g == DefaultGamification(userId) && gamification == old(gamification)[userId := g]
      ensures g.userId == userId || userId in old(gamification)
      ensures users == old(users) && transactions == old(transactions) && quizHistory == old(quizHistory)
    {
      if userId !in gamification {
        gamification := gamification[userId := DefaultGamification(userId)];
      }
      g := gamification[userId];
    }

    /** `update_gamification_data`: the record replaces that user's, and only that user's. */
    method UpdateGamificationData(g: GamificationData)
      modifies this
      ensures gamification == old(gamification)[g.userId := g]
      ensures forall u :: u in old(gamification) && u != g.userId ==> gamification[u] == old(gamification)[u]
      ensures users == old(users) && transactions == old(transactions) && quizHistory == old(quizHistory)
    {
      gamification := gamification[g.userId := g];
    }
  }

  /** Asking twice for the same profile gives the same profile, and the
      second call stores nothing new. */
  method ProfileLookupIsStable(server: McpServer, userId: string, now1: int, now2: int)
    returns (first: UserProfile, second: UserProfile)
    modifies server
    ensures first == second
    ensures server.users == old(server.users)[userId := first]
  {
    first := server.GetUserProfile(userId, now1);
    ghost var between := server.users;
    second := server.GetUserProfile(userId, now2);
    assert server.users == between;
  }

  /** Creating a profile never disturbs progress already recorded. */
  method CreateKeepsProgress(server: McpServer, profile: UserProfile, g: GamificationData)
    modifies server
    ensures g.userId in server.gamification && server.gamification[g.userId] == g
    ensures profile.userId in server.users && server.users[profile.userId] == profile
  {
    server.UpdateGamificationData(g);
    var _ := server.CreateUserProfile(profile);
  }
}
