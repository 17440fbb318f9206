/**
 * The handlers of the chat server that change the store: create, rename and
 * delete a chat, add a user message, and generate an assistant reply. The store
 * is the `{"chats": [...]}` document, held in memory by a ChatStore object;
 * reading and writing the JSON file are not part of this model.
 */
module Store {

  import opened Wrappers
  import opened Chats
  import opened Uploads
  import opened Prompt

  /** The HTTP status a handler answers with: 200, 201, 400 or 404. */
  datatype Status = Ok | Created | BadRequest | NotFound

  /** A handler's answer: a status, and the record it returns on success. */
  datatype Response<T> = Done(status: Status, body: T) | Failed(status: Status)

  /** The `chat_id` form field of a generate request, as `int(...)` reads it. */
  datatype ChatIdField = Missing | Parsed(n: int) | Unparsable

  /** A missing `chat_id` field stands for chat 0. */
  function RequestedId(field: ChatIdField): int
    requires !field.Unparsable?
  {
    match field
    case Missing => 0
    case Parsed(n) => n
  }

  /** Python falsiness of a JSON id: absent, null or 0. */
  predicate FalsyId(id: Option<int>)
  {
    id.None? || id.value == 0
  }

  /** Python falsiness of a JSON string: absent, null or empty. */
  predicate FalsyText(s: Option<string>)
  {
    s.None? || s.value == ""
  }

  /**
   * The reply of the AI provider: the opaque function `complete` (the provider,
   * including its fallback text when the call fails) applied to the prepared
   * prompt and the names of the attached images.
   */
  function AiReply(complete: (string, seq<string>) -> string, userPrompt: string,
                   chatHistory: Option<seq<Message>>, images: Option<seq<string>>): string
  {
    complete(PromptText(PSYHELPER_TEXTS, userPrompt, chatHistory, images),
             if images.Some? then images.value else [])
  }

  /** `process_ai_response`: builds the prompt and asks the AI provider. */
  method ProcessAiResponse(complete: (string, seq<string>) -> string, userPrompt: string,
                           chatHistory: Option<seq<Message>>, images: Option<seq<string>>)
    returns (reply: string)
    ensures reply == AiReply(complete, userPrompt, chatHistory, images)
  {
    var prompt := PreparePrompt(PSYHELPER_TEXTS, userPrompt, chatHistory, images);
    if images.Some? && images.value != [] {
      reply := complete(prompt, images.value);
    } else {
      reply := complete(prompt, []);
    }
  }

  class ChatStore {

    /** The list under the document's "chats" key, in file order. */
    var chats: seq<Chat>

    /** Chat ids are positive and pairwise distinct. */
    ghost predicate Valid()
      reads this
    {
      IdsValid(chats)
    }

    /** The store as `load_chats` returned it. */
    constructor (loaded: seq<Chat>)
      ensures chats == loaded
    {
      chats := loaded;
    }

    /** POST /api/chats: append a new, empty chat with a fresh id. */
    method Create(title: Option<string>, now: string) returns (r: Response<Chat>)
      modifies this
      ensures r.Done? && r.status == Created
      ensures r.body == Chat(NextId(old(chats)), if title.Some? then title.value else DEFAULT_TITLE, now, [])
      ensures chats == old(chats) + [r.body]
      ensures forall i :: 0 <= i < |old(chats)| ==> old(chats)[i].id < r.body.id
      ensures old(Valid()) ==> Valid()
    {
      var newChat := Chat(NextId(chats), if title.Some? then title.value else DEFAULT_TITLE, now, []);
      if IdsValid(chats) {
        AppendNextIdValid(chats, newChat);
      }
      chats := chats + [newChat];
      r := Done(Created, newChat);
    }

    /** PUT /api/chats: give the chat with the id a new title. */
    method Rename(id: Option<int>, title: Option<string>) returns (status: Status)
      modifies this
      ensures status == BadRequest <==> FalsyId(id) || FalsyText(title)
      ensures status == NotFound <==> !FalsyId(id) && !FalsyText(title) && FindIndex(old(chats), id.value).None?
      ensures status == Ok || status == BadRequest || status == NotFound
      ensures status != Ok ==> chats == old(chats)
      ensures status == Ok ==>
                var i := FindIndex(old(chats), id.value).value;
                chats == old(chats)[i := old(chats)[i].(title := title.value)]
      ensures Ids(chats) == Ids(old(chats))
      ensures old(Valid()) ==> Valid()
    {
      if FalsyId(id) || FalsyText(title) {
        return BadRequest;
      }
      var found := FindIndex(chats, id.value);
      if found.None? {
        return NotFound;
      }
      var i := found.value;
      ghost var before := chats;
      chats := chats[i := chats[i].(title := title.value)];
      assert Ids(chats) == Ids(before);
      if IdsValid(before) {
        SameIdsValid(before, chats);
      }
      status := Ok;
    }

    /** DELETE /api/chats: drop every chat with the id. */
    method Delete(id: Option<int>) returns (status: Status)
      modifies this
      ensures status == if FalsyId(id) then BadRequest else Ok
      ensures FalsyId(id) ==> chats == old(chats)
      ensures !FalsyId(id) ==> chats == Without(old(chats), id.value)
      ensures !FalsyId(id) && FindIndex(old(chats), id.value).None? ==> chats == old(chats)
      ensures old(Valid()) && !FalsyId(id) && FindIndex(old(chats), id.value).Some? ==>
                var i := FindIndex(old(chats), id.value).value;
                chats == old(chats)[..i] + old(chats)[i + 1..]
      ensures old(Valid()) ==> Valid()
    {
      if FalsyId(id) {
        return BadRequest;
      }
      ghost var before := chats;
      chats := Without(chats, id.value);
      match FindIndex(before, id.value) {
        case None =>
          WithoutAbsent(before, id.value);
        case Some(i) =>
          if IdsValid(before) {
            WithoutAt(before, i);
          }
      }
      if IdsValid(before) {
        WithoutValid(before, id.value);
      }
      status := Ok;
    }

    /** `chat["messages"].append(message)` on the chat at position i. */
    method AppendMessage(i: nat, message: Message)
      requires i < |chats|
      modifies this
      ensures chats == old(chats)[i := old(chats)[i].(messages := old(chats)[i].messages + [message])]
      ensures Ids(chats) == Ids(old(chats))
      ensures old(Valid()) ==> Valid()
    {
      ghost var before := chats;
      chats := chats[i := chats[i].(messages := chats[i].messages + [message])];
      assert Ids(chats) == Ids(before);
      if IdsValid(before) {
        SameIdsValid(before, chats);
      }
    }

    /** POST /api/chat/<chat_id>: append a user message to the chat. */
    method AddUserMessage(chatId: nat, content: Option<string>, now: string) returns (r: Response<Message>)
      modifies this
      ensures FindIndex(old(chats), chatId).None? ==> r == Failed(NotFound) && chats == old(chats)
      ensures FindIndex(old(chats), chatId).Some? && content.None? ==> r == Failed(BadRequest) && chats == old(chats)
      ensures FindIndex(old(chats), chatId).Some? && content.Some? ==>
                var i := FindIndex(old(chats), chatId).value;
                && r == Done(Created, Message(USER_ROLE, content.value, None, now))
                && chats == old(chats)[i := old(chats)[i].(messages := old(chats)[i].messages + [r.body])]
      ensures Ids(chats) == Ids(old(chats))
      ensures old(Valid()) ==> Valid()
    {
      var found := FindIndex(chats, chatId);
      if found.None? {
        return Failed(NotFound);
      }
      if content.None? {
        return Failed(BadRequest);
      }
      var message := Message(USER_ROLE, content.value, None, now);
      AppendMessage(found.value, message);
      r := Done(Created, message);
    }

    /**
     * POST /api/generate: store the user's message with the accepted images,
     * ask the AI with the history as it was before that message, and store the
     * reply. `ai` stands for `process_ai_response`; GenerateWithProvider
     * instantiates it with `AiReply` over the provider.
     */
    method Generate(prompt: Option<string>, chatIdField: ChatIdField, uploads: seq<string>,
                    sanitize: string -> string,
                    ai: (string, Option<seq<Message>>, Option<seq<string>>) -> string,
                    userTime: string, replyTime: string)
      returns (r: Response<Message>)
      modifies this
      ensures prompt.None? || chatIdField.Unparsable? ==> r == Failed(BadRequest) && chats == old(chats)
      ensures prompt.Some? && !chatIdField.Unparsable? && FindIndex(old(chats), RequestedId(chatIdField)).None? ==>
                r == Failed(NotFound) && chats == old(chats)
      ensures prompt.Some? && !chatIdField.Unparsable? && FindIndex(old(chats), RequestedId(chatIdField)).Some? ==>
                var i := FindIndex(old(chats), RequestedId(chatIdField)).value;
                var chat := old(chats)[i];
                var images := AcceptedImages(uploads, sanitize);
                var userMessage := Message(USER_ROLE, prompt.value, Some(images), userTime);
                var reply := ai(prompt.value, Some(chat.messages), if images == [] then None else Some(images));
                && r == Done(Ok, Message(ASSISTANT_ROLE, reply, None, replyTime))
                && chats == old(chats)[i := chat.(messages := chat.messages + [userMessage, r.body])]
      ensures old(Valid()) && prompt.Some? && chatIdField.Missing? ==> r == Failed(NotFound)
      ensures Ids(chats) == Ids(old(chats))
      ensures old(Valid()) ==> Valid()
    {
      if prompt.None? {
        return Failed(BadRequest);
      }
      if chatIdField.Unparsable? {
        return Failed(BadRequest);
      }
      var chatId := RequestedId(chatIdField);
      var images := CollectImages(uploads, sanitize);
      if IdsValid(chats) {
        NoChatZero(chats);
      }
      var found := FindIndex(chats, chatId);
      if found.None? {
        return Failed(NotFound);
      }
      var aiMessage := RecordTurn(found.value, prompt.value, images, ai, userTime, replyTime);
      r := Done(Ok, aiMessage);
    }

    /**
     * POST /api/generate as the server runs it: the AI is `process_ai_response`
     * over the provider `complete`.
     */
    method GenerateWithProvider(prompt: Option<string>, chatIdField: ChatIdField, uploads: seq<string>,
                                sanitize: string -> string, complete: (string, seq<string>) -> string,
                                userTime: string, replyTime: string)
      returns (r: Response<Message>)
      modifies this
      ensures prompt.None? || chatIdField.Unparsable? ==> r == Failed(BadRequest) && chats == old(chats)
      ensures prompt.Some? && !chatIdField.Unparsable? && FindIndex(old(chats), RequestedId(chatIdField)).None? ==>
                r == Failed(NotFound) && chats == old(chats)
      ensures prompt.Some? && !chatIdField.Unparsable? && FindIndex(old(chats), RequestedId(chatIdField)).Some? ==>
                var i := FindIndex(old(chats), RequestedId(chatIdField)).value;
                var chat := old(chats)[i];
                var images := AcceptedImages(uploads, sanitize);
                var userMessage := Message(USER_ROLE, prompt.value, Some(images), userTime);
                var reply := AiReply(complete, prompt.value, Some(chat.messages), if images == [] then None else Some(images));
                && r == Done(Ok, Message(ASSISTANT_ROLE, reply, None, replyTime))
                && chats == old(chats)[i := chat.(messages := chat.messages + [userMessage, r.body])]
      ensures old(Valid()) ==> Valid()
    {
      r := Generate(prompt, chatIdField, uploads, sanitize,
                    (p, h, im) => AiReply(complete, p, h, im), userTime, replyTime);
    }

    /**
     * The success path of POST /api/generate on the chat at position i: append
     * the user's message, ask the AI with every message but that one, append
     * the reply.
     */
    method RecordTurn(i: nat, userPrompt: string, images: seq<string>,
                      ai: (string, Option<seq<Message>>, Option<seq<string>>) -> string,
                      userTime: string, replyTime: string)
      returns (aiMessage: Message)
      requires i < |chats|
      modifies this
      ensures aiMessage == Message(ASSISTANT_ROLE,
                                   ai(userPrompt, Some(old(chats)[i].messages), if images == [] then None else Some(images)),
                                   None, replyTime)
      ensures chats == old(chats)[i := old(chats)[i].(messages := old(chats)[i].messages
                                                      + [Message(USER_ROLE, userPrompt, Some(images), userTime), aiMessage])]
      ensures Ids(chats) == Ids(old(chats))
      ensures old(Valid()) ==> Valid()
    {
      ghost var before := chats;
      var userMessage := Message(USER_ROLE, userPrompt, Some(images), userTime);
      AppendMessage(i, userMessage);
      var history := chats[i].messages[..|chats[i].messages| - 1];
      assert history == before[i].messages;
      var reply := ai(userPrompt, Some(history), if images != [] then Some(images) else None);
      aiMessage := Message(ASSISTANT_ROLE, reply, None, replyTime);
      AppendMessage(i, aiMessage);
      assert chats[i].messages == before[i].messages + [userMessage, aiMessage];
    }
  }
}
