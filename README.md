# PsyHELPER chat store, in Dafny

PsyHELPER is a small Flask server: a chat front end for an AI "psychologist". It keeps its chats in
one JSON document, `{"chats": [...]}`. Each chat has an `id`, a `title`, a `created_at` timestamp and
a list of messages. Each message has a `role` ("user" or "assistant"), a `content`, optionally the
names of attached `images`, and a `timestamp`.

This project models the part of `app.py` that decides what happens to that document:

- `generate_chat_id`, the id of a new chat (`Chats.NextId`);
- the `next(c for c in chats if c["id"] == id)` lookup (`Chats.FindIndex`) and the delete filter
  (`Chats.Without`);
- `allowed_file`, the extension whitelist for uploaded images (`Uploads`), and the loop in
  `generate_response` that collects the accepted image names;
- `prepare_prompt`, the text sent to the AI provider (`Prompt`). Its fixed Russian texts are
  gathered in a `Texts` record, `PSYHELPER_TEXTS`. Every property of the prompt is proved for any
  texts, so it holds for the server's texts in particular;
- the handlers that change the store (`Store.ChatStore`):
  - `POST /api/chats` (create a chat);
  - `PUT /api/chats` (rename a chat);
  - `DELETE /api/chats` (delete a chat);
  - `POST /api/chat/<id>` (add a user message);
  - `POST /api/generate` (store a user message and the AI's reply).

The store is a `ChatStore` object whose `chats` sequence the handler methods update in place,
as the handlers update the loaded document. Each handler returns the HTTP status it answers with,
and the record it returns on success.

The invariant `Valid()` says that chat ids are positive and pairwise distinct. The server never
checks it on load, so no handler requires it. Every handler ensures that a store which kept it
still keeps it.

Request fields are modelled as follows:

- An optional JSON field is an `Option`: `None` means the key is absent.
- Python falsiness is spelled out: an id is falsy when absent or 0, a title when absent or empty.
- The `chat_id` form field of `/api/generate` is `Missing`, `Parsed(n)` or `Unparsable` (when
  `int(...)` raises `ValueError`). A missing field stands for chat 0, which a valid store never
  holds, so such a request always ends in 404 (`Chats.NoChatZero`).

## Model

| member | source | states |
|---|---|---|
| Uploads.Lower | app.py:23 | `.lower()` keeps the length and lowers each character (ASCII letters A-Z) |
| Uploads.LastDot | app.py:22-23 | the position `rsplit('.', 1)` splits at: a '.' with no '.' after it; None exactly when the name has no '.' |
| Uploads.AllowedFileMeans | app.py:21-23 | `allowed_file(f)` holds iff `f` has a last '.' and the lowered text after it is png, jpg, jpeg or gif |
| Uploads.AllowedFileByExtension | app.py:21-23 | for `stem + "." + ext` with no '.' in `ext`, the name is allowed iff the lowered `ext` is in the whitelist, whatever the stem holds |
| Uploads.ExtensionIgnoresCase | app.py:23 | the extension checked is the same for a name and its lowered form |
| Uploads.AllowedFileIgnoresCase | app.py:23 | a name is allowed iff its lowered form is |
| Uploads.LowerIdempotent | app.py:23 | lowering twice is lowering once |
| Uploads.AcceptedImages | app.py:190-197 | the accepted names are never more than the uploads |
| Uploads.AcceptedImagesSound | app.py:192-197 | every accepted name is the sanitized name of an upload that passed `allowed_file` |
| Uploads.AcceptedImagesComplete | app.py:192-197 | every upload that passes `allowed_file` has its sanitized name among the accepted ones |
| Uploads.CollectImages | app.py:190-197 | the collecting loop returns exactly the accepted names, in upload order |
| Chats.MaxId | app.py:42 | `max(ids or [0])`: 0 for no chats, otherwise an id of the store that no id exceeds |
| Chats.NextId | app.py:41-42 | 1 for an empty store; otherwise one more than an existing id and greater than every id |
| Chats.FindIndex | app.py:138 | the first chat with the id; None exactly when no chat has it |
| Chats.FindIndexUnique | app.py:138 | in a valid store the lookup finds the one chat with that id |
| Chats.NoChatZero | app.py:185 | a valid store has no chat 0, the id of a generate request without `chat_id` |
| Chats.AppendNextIdValid | app.py:120-129 | appending a chat with the fresh id keeps ids positive and distinct |
| Chats.SameIdsValid | app.py:142 | replacing chats by chats with the same ids (new title, new messages) keeps the invariant |
| Chats.Without | app.py:151 | the filter never grows the list |
| Chats.WithoutMembers | app.py:151 | a chat survives the filter iff it was in the store and has another id |
| Chats.WithoutAbsent | app.py:151 | filtering an id no chat has leaves the list unchanged |
| Chats.WithoutAt | app.py:151 | in a valid store, the filter removes exactly the chat with the id and keeps the others in order |
| Chats.WithoutValid | app.py:151 | the filter keeps the invariant |
| Prompt.PsyhelperLabelsDiffer | app.py:61 | with the server's texts, a line carries "Пользователь" iff the message's role is "user" |
| Prompt.Window | app.py:60 | `chat_history[-6:]`: at most six messages, all of them when fewer, and always the newest ones |
| Prompt.BuildHistory | app.py:57-63 | the `+=` loop builds the history section: the header, one labelled line per message of the window, a blank line |
| Prompt.PreparePrompt | app.py:44-77 | `prepare_prompt` returns rules, history section, image notice, request line and closing, in that order |
| Prompt.LinesAppend | app.py:60-62 | the lines of two runs of messages are the lines of each, one after the other |
| Prompt.HistoryQuotesWindow | app.py:58-63 | the history section quotes each message of the window on its own line, in history order, labelled with the user label when its role is "user" and with the assistant label otherwise |
| Prompt.PromptFraming | app.py:69-75 | every prompt starts with the rules text and ends with the current request and the closing sentence |
| Prompt.PromptWithoutHistory | app.py:56-58 | a None or empty history adds no history section |
| Prompt.PromptImageNotice | app.py:65-67 | the image notice is inserted between history and request iff the image list is non-empty |
| Prompt.PromptIgnoresOlderHistory | app.py:60 | messages older than the last six never reach the prompt |
| Store.ProcessAiResponse | app.py:79-106 | the provider gets the prepared prompt and the image names, or no images when there are none |
| Store.ChatStore.constructor | app.py:115 | the store holds the chats as loaded |
| Store.ChatStore.Create | app.py:120-129 | 201 and exactly one new chat at the end: fresh id above every other, given or default title, no messages; earlier chats unchanged; invariant kept |
| Store.ChatStore.Rename | app.py:131-144 | 400 iff id or title is falsy, else 404 iff no chat has the id; both leave the store unchanged; otherwise only the title of the first chat with the id changes; ids unchanged |
| Store.ChatStore.Delete | app.py:146-153 | 400 with no change for a falsy id; otherwise 200 and exactly the chats with another id remain, in order; an absent id changes nothing |
| Store.ChatStore.AppendMessage | app.py:175 | one message appended to one chat; every other chat and field unchanged |
| Store.ChatStore.AddUserMessage | app.py:155-177 | 404 for an unknown chat, checked before 400 for missing content, both with no change; otherwise 201 and the user message appended to that chat alone |
| Store.ChatStore.Generate | app.py:179-230 | 400 for a missing prompt or unparsable id, 404 for an unknown chat, both with no change; otherwise the chat grows by the user message (with the accepted images) and the reply, the AI sees the history before the new message, ids and invariant kept |
| Store.ChatStore.GenerateWithProvider | app.py:179-230 | the generate handler with `process_ai_response` as the AI: the stored reply is the provider's answer to the prepared prompt over the history before the new message |
| Store.ChatStore.RecordTurn | app.py:205-229 | the chat gains exactly the user message then the assistant reply; the AI call receives `messages[:-1]`, the history before the user message |

## Left out

- Reading and writing `chats.json` (`init_chats_file`, `load_chats`, `save_chats`). The store is the
  in-memory `chats` sequence, and the constructor takes the loaded list.
- Flask routing, the `GET` handlers, `index`, the 404/500 error handlers, the upload size limit and
  the error message texts. Handlers return only a `Status` and the returned record.
- Malformed requests: a JSON body that is missing or not an object (Flask answers 415 or the
  handler raises), ids that are not integers (strings, `true`, which Python compares equal to 1),
  and titles or contents that are not strings. A `content` or `title` sent as JSON `null` is
  treated like an absent key, though the source would store `null`.
- `datetime.now()`: timestamps are parameters of the handlers.
- `secure_filename` is the opaque function `sanitize`. `file.save` is not modelled, so the images a
  request saves before its chat lookup fails are not modelled either.
- `int(...)` parsing of `chat_id` is not modelled; its outcome is the `ChatIdField` parameter.
- The g4f provider is the opaque function `complete`, together with its error fallback text and its
  filtering of image files that do not exist on disk.
- Store.ChatStore.Generate: the AI is the parameter `ai`, and its contract holds for any `ai`.
  `Store.ChatStore.GenerateWithProvider` instantiates it with `AiReply` over the provider.
- Uploads.Lower: lowers ASCII letters only, where Python lowers all of Unicode (and can lengthen
  the text: U+0130 lowers to "i" and a combining dot). No non-ASCII character lowers to exactly a
  letter of png, jpg, jpeg or gif, so `allowed_file` decides the same.
- Concurrency: each handler is modelled as one atomic step on the store. The server runs threaded,
  and each handler loads the file, changes its copy and saves it with no lock; `generate_response`
  holds its copy from the lookup across the AI call until it saves. Concurrent requests can
  therefore overwrite each other (a chat created or renamed during a generate is lost, two
  concurrent creates get the same id), which this model does not capture.
- `static/js/script.js`, the browser UI, is not part of this model.
