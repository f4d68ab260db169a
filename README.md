# Chat turns and collaboration sessions of a local-LLM chat front end

This project models, in Dafny, the two pieces of bookkeeping in a Streamlit
chat front end for a locally hosted language model (Ollama):

- **The collaboration store** (`collaborative.py`, class
  `CollaborationSession`). It holds a table of session records keyed by id
  and a pointer to the "active" session. Operations create a session, join a
  participant, post a message, replace the shared whiteboard text, add a task,
  and read back the messages, the participant names, the invite link or the
  whole record. It is modelled as the class `Collaborative.CollaborationSession`
  with a `map<string, Session>` field and an `Option<string>` field. Each
  method states the whole new state: which record changes, how, and that no
  other record changes.
- **Chat turn bookkeeping** (`app.py`). The transcript (`messages`) and the
  history log (`chat_history`) are the two fields of the class
  `Chat.Conversation`. `SendMessage` and `RegenerateMessage` update them step
  by step, as the source does. Each method is proved equal to a pure function
  (`SendTurn`, `Regenerated`), and the lemmas about a turn are proved about
  those functions. The list helpers are modelled too: the history cleanup,
  the seeding of session-state defaults, the response-length total, the
  choice of display columns and the plugin icon lookup.

The chat backend (`ollama.chat`) is a parameter of type `Request -> Reply`:
a total function from the request (model, messages, temperature) to
`Ok(text)` or `Err(reason)`. `Err` covers both a failing call and a reply
without `message.content`. Because the request is a value, contracts can say
exactly what was sent. Identifiers (uuid4 prefixes), `datetime.now()` and the
measured response time are inputs of the operations that use them.

Files: `base.dfy` (Option, Reply, datetimes and their `strftime` text,
`str(n)`, Python's `str.isspace`), `collaborative.dfy`, `history.dfy`
(the log), `chat.dfy` (the turns), `session_state.dfy` (defaults, plugin
icons).

Behaviour of the code a reader may not expect, which the model follows:

- `regenerate_message` never checks that the message at the index is an
  assistant message.
- Regeneration sends the preceding message as a user message, whatever its
  role.
- A backend failure after the pop loses the popped message
  (`RegenerateFailureDropsMessage`).
- Ids are not checked for uniqueness, so `create_session` replaces an existing
  record with the same id.
- There is no `remove_task`.
- `send_message` returns nothing. The model returns the request it sent and
  the error notice it showed.

## Model

| member | source | states |
|---|---|---|
| `Collaborative.CollaborationSession.constructor` | collaborative.py:7-9 | a new store has no sessions and no active session |
| `Collaborative.NewSession` | collaborative.py:15-25 | a new record keeps the given id, name, type, max_users and creation time, and has no users, no messages, no tasks and an empty whiteboard |
| `Collaborative.CollaborationSession.CreateSession` | collaborative.py:11-28 | the table maps the id to a fresh empty record, replacing any earlier record under that id, with max_users 10 when the caller gives none; every other key is unchanged; the id becomes active and is returned |
| `Collaborative.CollaborationSession.HasActive` | collaborative.py:50 | `if self.active_session:` under Python truthiness: there is an active id and it is not the empty string |
| `Collaborative.CollaborationSession.JoinSession` | collaborative.py:30-46 | an unknown id returns false and changes nothing, including the active pointer; a known id returns true, appends exactly one participant marked active (named `User_<count+1>` when no name is given) to that session only, and makes it active; max_users is never consulted |
| `Collaborative.DefaultUserName` | collaborative.py:34 | the synthesized name is `User_` followed by the decimal text of count + 1 |
| `Collaborative.DefaultUserNameInjective` | collaborative.py:34 | two synthesized names are equal only for the same participant count |
| `Collaborative.JoinIgnoresCapacity` | collaborative.py:30-46 | a session created with max_users 2 accepts three joins and records three participants |
| `Collaborative.CollaborationSession.SendMessage` | collaborative.py:48-61 | with no active session it returns false and changes nothing; otherwise it appends exactly one message (sender "Anonymous" by default, type 'message') to the active session only, and the message feed read back grows by that one message |
| `Collaborative.CollaborationSession.GetMessages` | collaborative.py:63-67 | the active session's message list, or the empty list when no session is active |
| `Collaborative.Names` | collaborative.py:157 | the comprehension over the participants: one name per participant, in join order |
| `Collaborative.CollaborationSession.GetActiveUsers` | collaborative.py:154-158 | the names of all participants of the active session in join order (the active flag is not consulted), or the empty list |
| `Collaborative.CollaborationSession.UpdateWhiteboard` | collaborative.py:160-165 | with no active session it returns false and changes nothing; otherwise only the active record's whiteboard changes, to exactly the new text; writing the text already there changes nothing |
| `Collaborative.CollaborationSession.AddTask` | collaborative.py:167-180 | with no active session it returns false and changes nothing; otherwise exactly one task, not completed and with no assignee, is appended to the active session only |
| `Collaborative.CollaborationSession.GetInviteLink` | collaborative.py:182-186 | empty exactly when no session is active; otherwise the base address followed by the active id |
| `Collaborative.CollaborationSession.ExportData` | collaborative.py:188-192 | the active record when a session is active, and nothing (the empty dict) exactly when none is |
| `Base.Decimal` | collaborative.py:34 | `str(n)`: at least one character, all of them digits, a single digit exactly for n < 10, the last digit being n mod 10, a leading '0' only for n = 0 |
| `Base.DecimalValue` | collaborative.py:34 | `str(n)` read back digit by digit (`int(s)`) gives n |
| `Base.DecimalInjective` | collaborative.py:34 | different numbers have different decimal texts |
| `Base.Stamp` | app.py:151 | `strftime("%Y-%m-%d %H:%M:%S")` yields 19 characters with '-', '-', ' ', ':', ':' at positions 4, 7, 10, 13, 16, decimal digits everywhere else, and the digit groups between them read back as year, month, day, hour, minute and second |
| `Base.TwoDigits` | app.py:151 | the `%m`, `%d`, `%H`, `%M`, `%S` fields: exactly two decimal digits that read back as the value |
| `Base.FourDigits` | app.py:151 | the `%Y` field of a four-digit year: exactly four decimal digits that read back as the year |
| `Base.StampInjective` | app.py:151 | different instants are formatted differently |
| `Base.Strip` | app.py:279 | `str.strip()`: no longer than the input, and neither starting nor ending with a character Python's `str.isspace` accepts (`Base.IsSpace`) |
| `Base.StripRemovesOnlySurroundingSpace` | app.py:279 | the input is a blank prefix, then what `str.strip()` returns, then a blank suffix: only surrounding whitespace is removed |
| `Base.BlankIffStripEmpty` | app.py:279 | `not prompt.strip()` holds exactly when every character of the prompt is whitespace (`Base.IsBlank`) |
| `Chat.ReduceAll` | app.py:288-289 | every message reduced to role and content, same length and same order |
| `Chat.ContextWindow` | app.py:287-289 | the last min(10, n) messages, oldest first, reduced to role and content |
| `Chat.BuildContext` | app.py:287-289 | the copying loop produces exactly the context window |
| `Chat.Conversation.constructor` | app.py:162-177 | a new conversation starts with an empty transcript and an empty log, as the 'messages' and 'chat_history' defaults give |
| `Chat.SendTurn` | app.py:277-325 | the reference state after send_message: unchanged exactly for a blank prompt; otherwise the transcript keeps its old messages and grows by two, the first being the prompt; the log keeps its old entries and grows by at most one |
| `Chat.Conversation.SendMessage` | app.py:277-325 | the new transcript and log are those of `SendTurn`; the request (`SendRequest`: the model, the context window after the prompt is appended, and the temperature, as app.py:293-297 passes them) is sent only for a non-blank prompt; an error notice is shown exactly when the backend fails |
| `Chat.BlankPromptIsNoOp` | app.py:279-280 | a prompt of whitespace only leaves transcript and log unchanged |
| `Chat.ContextIsRecentMessages` | app.py:283-289 | the context is the last min(10, n) messages of the transcript after the prompt is appended, in order, reduced to role and content, ending with the prompt |
| `Chat.SendSuccess` | app.py:283-316 | on success the transcript grows by exactly the prompt and the reply, and the log by exactly one entry with the prompt, the reply, the reply's length and the formatted time |
| `Chat.SendFailure` | app.py:320-325 | on failure the transcript ends with the prompt and "Sorry, I encountered an error: " + reason, and the log is unchanged |
| `Chat.SendKeepsLogConsistent` | app.py:309-316 | if every log entry records the length of its own reply, that stays true after a turn |
| `Chat.SendAddsReplyLength` | app.py:309-316 | the total response length grows by the reply's length on success and is unchanged otherwise |
| `Chat.RandomPromptSentTwice` | app.py:1158-1161 | the random-prompt button leaves the prompt twice in a row in the transcript, and the backend sees it twice at the end of its context |
| `Chat.Conversation.RegenerateMessage` | app.py:353-381 | the new transcript is `Regenerated`; the log is untouched; the request (`RegenerateRequest`, only for 0 < index < n) is the model, the content of the preceding message alone as a user message, and the temperature, as app.py:366-370 passes them; the notice is "pop from empty list" for a positive index on an empty transcript, "pop index out of range" for an index past the end of a non-empty one, and the backend's reason on failure |
| `Chat.Regenerated` | app.py:353-381 | the reference transcript after regenerate_message: at most one message shorter; messages before `index` unchanged; when one shorter, the index was in range and the later messages moved up by one; when the length is kept, every position but `index` unchanged |
| `Chat.RegenerateSuccess` | app.py:357-376 | on success the length is kept, every other position is unchanged, and position `index` holds the reply to the single preceding message |
| `Chat.RegenerateOutOfRange` | app.py:357-359 | an index of 0 or below, or past the end, leaves the transcript unchanged |
| `Chat.RegenerateFailureDropsMessage` | app.py:359-381 | a backend failure after the pop leaves the transcript one shorter, without the message at `index`, the rest in order |
| `Chat.Conversation.CleanupChatHistory` | app.py:143-157 | the log becomes its cleaned version; the transcript is unchanged |
| `History.TurnEntry` | app.py:309-316 | a recorded turn has exactly the six display columns, with timestamp = the formatted time, model = the session's model, user = prompt, assistant = reply, response_length = the reply's length and response_time = the measured time |
| `History.CleanEntry` | app.py:148-156 | the same keys; every key but 'timestamp' unchanged; a datetime stamp becomes its formatted text and any other stamp is kept |
| `History.Cleaned` | app.py:143-157 | same length and order, each entry cleaned |
| `History.CleanHistory` | app.py:146-157 | the loop builds exactly the cleaned log |
| `History.CleanedIsClean` | app.py:143-157 | after cleanup no datetime stamp is left, and a log without one is left as it is |
| `History.CleanedIdempotent` | app.py:143-157 | cleaning twice equals cleaning once |
| `History.CleanedKeepsConsistency` | app.py:143-157 | cleanup keeps each entry's reply and recorded length together |
| `History.TotalResponseLength` | app.py:1676 | `sum(msg.get('response_length', 0) …)`: never negative when no entry records a negative length, and 0 when no entry records one |
| `History.TotalAppend` | app.py:1676 | appending an entry adds its response_length, or 0 when it has none |
| `History.TotalOfTurns` | app.py:1684 | a log of recorded turns, each with its own model, stamp and response time, totals the lengths of their replies |
| `History.CleanedKeepsTotal` | app.py:1676 | cleanup does not change the total response length |
| `History.Columns` | app.py:1737-1740 | the table's columns are exactly the keys occurring in some entry |
| `History.Present` | app.py:1743-1746 | exactly the names of the order that are available, and a subsequence of the order |
| `History.KeepAvailable` | app.py:1743-1746 | the selection loop produces exactly that subsequence |
| `History.SelectDisplayColumns` | app.py:1735-1746 | the displayed columns are the six known ones, in their fixed order, that occur in the log |
| `History.AllColumnsAfterATurn` | app.py:1743-1746 | once a turn is recorded, all six columns are displayed |
| `SessionState.Defaults` | app.py:162-182 | the nineteen defaults, in the source's order, no key named twice |
| `SessionState.FillDefaults` | app.py:184-186 | existing keys keep their values, and afterwards the keys are the old keys plus every default key |
| `SessionState.FillDefaultsGivesDefault` | app.py:184-186 | a key that was missing receives its default |
| `SessionState.CleanupLog` | app.py:189 | the keys are unchanged and only 'chat_history' may change |
| `SessionState.SessionState.InitSessionState` | app.py:160-189 | the new table is the old one filled with the defaults (a new collaboration store when COLLAB_ENABLED holds, which needs the audio, image and collaboration modules all to import, None otherwise) and then log-cleaned; the new store is the empty one `CollaborationSession()` builds, with no sessions, no active session and its invariant holding |
| `SessionState.SessionState.constructor` | app.py:160 | the session state starts as an empty table |
| `SessionState.SessionState.ApplyDefaults` | app.py:184-189 | the table becomes the old one filled with the defaults and then log-cleaned |
| `SessionState.SessionState.FillMissing` | app.py:184-186 | the loop leaves the table equal to `FillDefaults` of the old table |
| `SessionState.InitKeepsAndCovers` | app.py:160-189 | no present value is overwritten (the log is only cleaned); every default key is present afterwards, holding its default when it was missing |
| `SessionState.HistoryDefaultIsEmpty` | app.py:177 | the default log is the empty list |
| `SessionState.CleanupLogIdempotent` | app.py:143-157 | cleaning the log held in the table twice equals cleaning it once |
| `SessionState.InitIdempotent` | app.py:160-189 | a second run, on a later run of the page, changes nothing |
| `SessionState.PluginIcon` | app.py:193-203 | the six known plugins get their own icons, and the fallback icon is returned exactly for unknown names |
| `SessionState.PluginIconsDistinct` | app.py:195-202 | two different known plugins never share an icon |

## Left out

- Rendering is not modelled: Streamlit widgets, CSS/JS, tabs, spinners and `st.rerun`. `st.rerun` raises a control-flow exception that `except Exception` does not catch, after the state is final. The `st.error` notices become returned strings.
- The backend call is an abstract function. The network client, model options other than temperature, and the contents of a reply are not modelled.
- `Chat.Conversation.SendMessage`: the measured response time is an input. `time.time()` and `round(…, 2)` are not modelled.
- Temperature is a `real`; floating-point behaviour is not modelled.
- uuid4 ids and `datetime.now()` values are inputs. `Base.Instant` is restricted to four-digit years, which every present-day clock gives. Leading-zero behaviour of `%Y` for earlier years is not modelled.
- `Collaborative.CollaborationSession.GetMessages` and `Collaborative.CollaborationSession.ExportData` return values. In Python they return the live list and dict, so a caller that mutates them mutates the store. Aliasing is not modelled.
- `Collaborative.CollaborationSession.SendMessage` models the method body at collaborative.py:48-61. The same class body later defines a self-less `send_message(prompt)` (collaborative.py:194), which shadows it. As shipped, `collab_session.send_message(text)` reaches that later function with two positional arguments and raises TypeError.
- The other self-less functions in collaborative.py:69-267 are not modelled. They refer to names the module does not define.
- The calls at app.py:1609, 1618 and 1624 go to `remove_task`, `get_tasks` and `get_participants`, which do not exist. No such operations are modelled.
- Non-dict entries in the history log are not modelled. Every entry the application writes is a dict, so the `isinstance(item, dict)` test always holds in the model.
- `History.TotalResponseLength` requires every present `response_length` to be a number. With anything else Python's `sum` raises TypeError; that path is not modelled.
- The average-length division and the metric text formatting are not modelled.
- The transcript and the log are fields of `Chat.Conversation`. The defaults table of `SessionState.SessionState` holds values of its own. The model does not link the "messages" and "chat_history" keys of that table to those fields.
- The inline chat-input path (app.py:1088-1141) repeats `send_message` without the blank-prompt guard and records "N/A" as the response time. It is not modelled separately. The voice and file paths (app.py:410-416, 450-454) append a user message and then call `send_message`, but with different text: voice appends "🎤 " plus the transcription and sends the transcription alone; the file path appends a "📎 File: …" summary and sends "Analyze this file content: …". So two user messages follow each other there too, but not the same text twice, and `Chat.RandomPromptSentTwice` does not carry over to them.
- The following are not modelled: the plugin forms, `export_chat` and the other downloads, analytics charts and demo numbers, cost estimates, audio capture, OCR and image filters, and the redefinitions at app.py:2041-2172.
