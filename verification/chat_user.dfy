/** The widget end-user of models/chat_user.go: activity counters and the
    two flags that decide whether the user may chat. */
module ChatUserModel {

  /** A `*ChatUser`. `now` stands for `time.Now()`. */
  class ChatUser {
    var UserID: string
    var ProjectID: string
    var Name: string
    var Email: string
    var TotalSessions: int
    var TotalMessages: int
    var TotalTokens: int
    var LastSeenAt: int
    var UpdatedAt: int
    var IsActive: bool
    var IsBlocked: bool
    var BlockingReason: string

    constructor (projectID: string, email: string, now: int)
      ensures ProjectID == projectID && Email == email
      ensures TotalSessions == 0 && TotalMessages == 0 && TotalTokens == 0
      ensures IsActive && !IsBlocked && LastSeenAt == now && UpdatedAt == now
      ensures CanChat()
    {
      UserID := "";
      ProjectID := projectID;
      Name := "";
      Email := email;
      TotalSessions := 0;
      TotalMessages := 0;
      TotalTokens := 0;
      LastSeenAt := now;
      UpdatedAt := now;
      IsActive := true;
      IsBlocked := false;
      BlockingReason := "";
    }

    /** `IsValidUser`. */
    predicate IsValidUser()
      reads this
    {
      ProjectID != "" && Email != ""
    }

    /** `CanChat`. */
    predicate CanChat()
      reads this
    {
      IsActive && !IsBlocked
    }

    /** `IncrementSession`: one more session; the other counters stay. */
    method IncrementSession(now: int)
      modifies this
      ensures TotalSessions == old(TotalSessions) + 1
      ensures TotalMessages == old(TotalMessages) && TotalTokens == old(TotalTokens)
      ensures LastSeenAt == now && UpdatedAt == now
      ensures IsActive == old(IsActive) && IsBlocked == old(IsBlocked) && BlockingReason == old(BlockingReason)
      ensures ProjectID == old(ProjectID) && Email == old(Email) && UserID == old(UserID) && Name == old(Name)
    {
      TotalSessions := TotalSessions + 1;
      LastSeenAt := now;
      UpdatedAt := now;
    }

    /** `IncrementMessage`: one more message and its tokens; the session
        count stays. */
    method IncrementMessage(tokensUsed: int, now: int)
      modifies this
      ensures TotalMessages == old(TotalMessages) + 1 && TotalTokens == old(TotalTokens) + tokensUsed
      ensures TotalSessions == old(TotalSessions)
      ensures LastSeenAt == now && UpdatedAt == now
      ensures IsActive == old(IsActive) && IsBlocked == old(IsBlocked) && BlockingReason == old(BlockingReason)
      ensures ProjectID == old(ProjectID) && Email == old(Email) && UserID == old(UserID) && Name == old(Name)
    {
      TotalMessages := TotalMessages + 1;
      TotalTokens := TotalTokens + tokensUsed;
      LastSeenAt := now;
      UpdatedAt := now;
    }

    /** `Block`: the reason field is left as it was. */
    method Block(now: int)
      modifies this
      ensures IsBlocked && !CanChat()
      ensures IsActive == old(IsActive) && BlockingReason == old(BlockingReason) && UpdatedAt == now
      ensures TotalSessions == old(TotalSessions) && TotalMessages == old(TotalMessages) && TotalTokens == old(TotalTokens)
      ensures LastSeenAt == old(LastSeenAt) && ProjectID == old(ProjectID) && Email == old(Email) && UserID == old(UserID) && Name == old(Name)
    {
      IsBlocked := true;
      UpdatedAt := now;
    }

    /** `Unblock`: chatting is back exactly when the user is active. */
    method Unblock(now: int)
      modifies this
      ensures !IsBlocked && (CanChat() <==> IsActive)
      ensures IsActive == old(IsActive) && BlockingReason == old(BlockingReason) && UpdatedAt == now
      ensures TotalSessions == old(TotalSessions) && TotalMessages == old(TotalMessages) && TotalTokens == old(TotalTokens)
      ensures LastSeenAt == old(LastSeenAt) && ProjectID == old(ProjectID) && Email == old(Email) && UserID == old(UserID) && Name == old(Name)
    {
      IsBlocked := false;
      UpdatedAt := now;
    }

    /** `Deactivate`. */
    method Deactivate(now: int)
      modifies this
      ensures !IsActive && !CanChat()
      ensures IsBlocked == old(IsBlocked) && BlockingReason == old(BlockingReason) && UpdatedAt == now
      ensures TotalSessions == old(TotalSessions) && TotalMessages == old(TotalMessages) && TotalTokens == old(TotalTokens)
      ensures LastSeenAt == old(LastSeenAt) && ProjectID == old(ProjectID) && Email == old(Email) && UserID == old(UserID) && Name == old(Name)
    {
      IsActive := false;
      UpdatedAt := now;
    }

    /** `Activate`: chatting is back exactly when the user is not blocked. */
    method Activate(now: int)
      modifies this
      ensures IsActive && (CanChat() <==> !IsBlocked)
      ensures IsBlocked == old(IsBlocked) && BlockingReason == old(BlockingReason) && UpdatedAt == now
      ensures TotalSessions == old(TotalSessions) && TotalMessages == old(TotalMessages) && TotalTokens == old(TotalTokens)
      ensures LastSeenAt == old(LastSeenAt) && ProjectID == old(ProjectID) && Email == old(Email) && UserID == old(UserID) && Name == old(Name)
    {
      IsActive := true;
      UpdatedAt := now;
    }
  }

  /** Blocking and then unblocking a user gives back the chat permission
      the user had, whatever it was. */
  method BlockThenUnblock(u: ChatUser, now: int)
    modifies u
    ensures u.CanChat() == old(u.CanChat()) || old(u.IsBlocked)
    ensures !u.IsBlocked && u.IsActive == old(u.IsActive)
  {
    u.Block(now);
    u.Unblock(now);
  }
}
