/** The Convex tables and scheduler that the handlers read and change. */
module Store {
  import opened Common
  import opened Schema

  /** A job handed to `ctx.scheduler.runAfter(0, …)`. */
  datatype Task =
    | SendMessage(prompt: string, chatId: ChatId, clientId: string, model: string,
                  webSearch: Option<bool>, sessionToken: string)
    | GenerateChatTitle(prompt: string, chatId: ChatId)

  /** The database: sessions and users of the auth component, and the `apiKeys` and `chats` tables. */
  class Db {
    var sessions: map<string, UserId>     // session token -> the session's userId
    var users: set<UserId>                // ids of the rows of the `user` table
    var apiKeys: map<UserId, KeyFields>   // the `apiKeys` row found through `by_user`
    var chats: seq<Chat>                  // the `chats` table, in insertion order
    var nextChatId: ChatId                // the id the next insert receives

    /** Ids grow with insertion order and are all below the next one. */
    ghost predicate Valid()
      reads this
    {
      && (forall i, j :: 0 <= i < j < |chats| ==> chats[i].id < chats[j].id)
      && (forall i :: 0 <= i < |chats| ==> chats[i].id < nextChatId)
    }

    constructor (sessions: map<string, UserId>, users: set<UserId>)
      ensures Valid()
      ensures this.sessions == sessions && this.users == users
      ensures apiKeys == map[] && chats == [] && nextChatId == 0
    {
      this.sessions := sessions;
      this.users := users;
      apiKeys := map[];
      chats := [];
      nextChatId := 0;
    }

    /** `db.insert("chats", { title, userId })`: the new row gets the next id and the current time. */
    method InsertChat(title: string, userId: UserId, creationTime: int) returns (id: ChatId)
      requires Valid()
      modifies this
      ensures Valid()
      ensures id == old(nextChatId) && nextChatId == id + 1
      ensures chats == old(chats) + [Chat(id, creationTime, title, userId)]
      ensures sessions == old(sessions) && users == old(users) && apiKeys == old(apiKeys)
    {
      id := nextChatId;
      chats := chats + [Chat(id, creationTime, title, userId)];
      nextChatId := nextChatId + 1;
    }

    /** `db.patch(id, { title })`: the chat with that id gets the title; an unknown id is an error. */
    method PatchChatTitle(id: ChatId, title: string) returns (r: Result<(), Error>)
      requires Valid()
      modifies this
      ensures Valid()
      ensures r.Err? <==> id !in ChatIds(old(chats))
      ensures r.Err? ==> r.error == DocumentNotFound && chats == old(chats)
      ensures r.Ok? ==> chats == Retitled(old(chats), id, title)
      ensures sessions == old(sessions) && users == old(users) && apiKeys == old(apiKeys)
      ensures nextChatId == old(nextChatId)
    {
      if id !in ChatIds(chats) {
        return Err(DocumentNotFound);
      }
      chats := Retitled(chats, id, title);
      return Ok(());
    }
  }

  /** The ids of the rows of a chat table. */
  function ChatIds(chats: seq<Chat>): (r: set<ChatId>)
    ensures forall i | 0 <= i < |chats| :: chats[i].id in r
    ensures forall id | id in r :: exists i | 0 <= i < |chats| :: chats[i].id == id
  {
    set c | c in chats :: c.id
  }

  /** The table after the chat with that id is given a new title. */
  function Retitled(chats: seq<Chat>, id: ChatId, title: string): (r: seq<Chat>)
    ensures |r| == |chats|
    ensures forall i | 0 <= i < |chats| :: r[i] == if chats[i].id == id then chats[i].(title := title) else chats[i]
  {
    seq(|chats|, i requires 0 <= i < |chats| => if chats[i].id == id then chats[i].(title := title) else chats[i])
  }

  /**
   * Retitling changes the title of the named chat only: every other chat, and
   * the id, creation time and owner of every chat, stay as they were.
   */
  lemma RetitleChangesOnlyTitle(chats: seq<Chat>, id: ChatId, title: string)
    ensures var r := Retitled(chats, id, title);
      && |r| == |chats|
      && (forall i | 0 <= i < |r| :: r[i].id == chats[i].id && r[i].creationTime == chats[i].creationTime
                                    && r[i].userId == chats[i].userId)
      && (forall i | 0 <= i < |r| && chats[i].id != id :: r[i] == chats[i])
      && (forall i | 0 <= i < |r| && chats[i].id == id :: r[i].title == title)
      && ChatIds(r) == ChatIds(chats)
  {
    var r := Retitled(chats, id, title);
    assert forall i | 0 <= i < |r| :: r[i].id == chats[i].id;
  }

  /** `ctx.scheduler`: the jobs queued so far, oldest first. */
  class Scheduler {
    var queue: seq<Task>

    constructor ()
      ensures queue == []
    {
      queue := [];
    }

    /** `scheduler.runAfter(0, fn, args)`: the job joins the back of the queue. */
    method RunAfter(task: Task)
      modifies this
      ensures queue == old(queue) + [task]
    {
      queue := queue + [task];
    }
  }
}
