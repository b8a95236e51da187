# Social-engineering training chatbot: the conversation engine, in Dafny

The system is a Telegram bot that plays a social-engineering attacker ("Jason from the
Bank", "from the Hospital", a voice clone) against a trainee. Around an external
language model and a vector search it runs a small amount of deterministic logic. This
project models that logic and proves what it does:

- **`Transcript`** (`chat_history.dfy`, from `chat_history.py`). The `ChatHistory` object
  is an ordered list of `(role, text)` turns, plus the persona role template and the
  profile name. Its `"role: text"` rendering is given twice: as the transcription, and as
  the text `save_chat` writes. A lemma relates the two.
- **`Faq`** (`embeddings.py`). This covers:
  - the FAQ question list and the question → answer map built from the knowledge-base CSV,
    where the last row for a question wins;
  - the retrieval decision: accept the nearest neighbour below a distance threshold, plus
    an independent "should learn" flag;
  - the CSV path and the index file names derived from the scenario name;
  - the `Embeddings` object with its lazily built index.

  The sentence encoder and the FAISS search are one oracle parameter, `search`. It maps
  the lower-cased prompt to the nearest ordinal and its distance, a real number.
- **`ActiveLearning`** (`learner.py`). The `Learner` object holds a FIFO queue of
  `(question, answer, path)` samples, the set of seen pairs, a stop flag and the
  append-only `samples.txt` log. The background thread's loop is modelled one iteration
  at a time by `Step`. Ghost fields record every submission and how many were processed,
  so the log is proved to list the processed samples in submission order. A parser
  proves that the record format reads back.
- **`Conversation`** (`llm.py`). This covers:
  - the account / ID number validator;
  - the case-insensitive `"bye"` termination test;
  - the `Llm` object's per-turn pipeline: FAQ hit first, then the validator, then the
    generative chain; both turns are recorded, a learning sample is queued when
    retrieval asks for one, and the conversation ends on "bye";
  - `llm_factory.generate_new_attack`.

  The chain is an oracle parameter, `chain`, from its input (role template, history,
  persona name, prompt) to a text.
- **`Sessions`** (`models.py`). The per-user `User` record: start and end of an attack,
  the pairing of `is_in_attack` with the engine, and the three-strike restart counter.
- **`Text`** (`text.dfy`). Shared pieces: Python's `None`, the exceptions that escape
  from the code (`Outcome` = a value or a raised error), ASCII `str.lower()` and the
  substring test `x in s`.

Python exceptions are modelled as results. A method that raises returns
`Raised(error)` and leaves the state as it was at the point of the raise. Files that do
not exist are `None` inputs. Files that are written are modelled as the text written.

Where the code and the system's design description disagree, the model follows the
code:
- The learner has no batching and no notification. It takes one sample at a time.
- The learning threshold is `1.19999`, not 1.4.
- An out-of-range ordinal raises `IndexError`; it does not answer "Can you repeat it?".
  The handler subscripts the list again (embeddings.py:127).
- Starting an attack neither checks for an active one nor resets the restart counter.

## Model

| member | source | states |
|---|---|---|
| Text.Lower | llm.py:132 | definition: `s.lower()` character by character on ASCII letters; the result has the length of `s` |
| Text.IsSubstring | llm.py:132 | definition: `sub in s`, a prefix match at the first position or a match further on |
| Text.LowerFixedIff | embeddings.py:98 | lower-casing leaves a name unchanged exactly when it has no upper-case letter |
| Text.IsSubstringIff | llm.py:132 | the substring test holds exactly when the pattern occurs at some position |
| Text.SubstringAt | llm.py:132 | an occurrence at a known position makes the substring test true |
| Transcript.RenderAll | chat_history.py:61 | definition: the generator `f"{role}: {msg}" for role, msg in ...`, one line per turn; what it means for the saved file and for appends is stated by SavedTextIsTranscription and TranscriptionAppend |
| Transcript.JoinLines | chat_history.py:61 | definition: `"\n".join(lines)`, the lines separated by newlines with none after the last |
| Transcript.Transcription | chat_history.py:60-61 | an empty history gives `"\n"`; every transcription ends in a newline |
| Transcript.SavedText | chat_history.py:28-29 | definition: the text the `save_chat` loop writes, `"role: text\n"` per turn in order |
| Transcript.SavedTextIsTranscription | chat_history.py:28-29 | for a non-empty history the saved file text equals the transcription; for an empty one the file is empty and the transcription is `"\n"` |
| Transcript.SavedTextAppend | chat_history.py:28-29 | appending a turn appends exactly its `"role: text\n"` line to the saved text |
| Transcript.TranscriptionAppend | chat_history.py:60-61 | for a non-empty history, appending a turn extends the transcription by exactly that turn's line, so turns appear in append order |
| Transcript.ChatHistory.constructor | chat_history.py:7-11 | empty history, no role, the given name, directory `chat_history` |
| Transcript.ChatHistory.SetProfileNameForTranscript | chat_history.py:13-14 | sets the name only |
| Transcript.ChatHistory.Flush | chat_history.py:16-20 | returns the saved text only when asked to save; whatever the flag, the history is empty and the role None afterwards; the name is kept |
| Transcript.ChatHistory.SaveChat | chat_history.py:22-29 | the loop writes exactly the saved text of the history, which is the transcription when the history is non-empty |
| Transcript.ChatHistory.InitializeRole | chat_history.py:31-32 | sets the role; history and name unchanged |
| Transcript.ChatHistory.AddHumanMessage | chat_history.py:34-36 | appends exactly `("user", msg)`; earlier turns, role and name unchanged |
| Transcript.ChatHistory.AddAiResponse | chat_history.py:41-43 | appends exactly `("assistant", res)`; earlier turns, role and name unchanged |
| Transcript.ChatHistory.GetWindow | chat_history.py:45-46 | the last appended turn; IndexError exactly when the history is empty |
| Transcript.ChatHistory.GetChatHistory | chat_history.py:48-49 | the turns in order |
| Transcript.ChatHistory.GetPrompt | chat_history.py:57-58 | the current role: None after construction or `Flush`, otherwise the role last set by `InitializeRole` |
| Transcript.ChatHistory.GetTranscription | chat_history.py:60-61 | the transcription of the current history, `"\n"` when it is empty |
| Faq.DropNa | embeddings.py:102 | a pair is in the result exactly when some row has both cells with those values; no pair is invented; with no missing cell every row is kept in order |
| Faq.DropNaAppend | embeddings.py:102 | filtering keeps file order: the complete rows of two consecutive runs of rows are those of the first followed by those of the second |
| Faq.Questions | embeddings.py:103-105 | the questions in row order, repeats included; a text is a listed question exactly when some row carries it |
| Faq.Load | embeddings.py:104-106 | definition: the map after `sentences_map[x] = y` for each row in order; its meaning is stated by LoadKeys, LoadLastWriteWins and LoadUntouched |
| Faq.LoadKeys | embeddings.py:104-106 | after loading, the keys are the old keys plus every question of the rows |
| Faq.LoadLastWriteWins | embeddings.py:104-106 | a question maps to the answer of the last row carrying it |
| Faq.LoadUntouched | embeddings.py:104-106 | a key no row carries keeps its old entry, or stays absent |
| Faq.PyIndex | embeddings.py:124 | Python list indexing: a non-negative index is itself, a negative one counts from the end |
| Faq.Retrieve | embeddings.py:122-132 | the learn flag is `distance > learn threshold` whether the hit is accepted or not; an answer is given exactly when the distance is below the threshold and it is a stored answer; errors arise only on an accepted hit |
| Faq.RetrieveHit | embeddings.py:122-124 | a close enough hit on a valid ordinal returns the map's answer for that FAQ question |
| Faq.RetrieveMiss | embeddings.py:129-130 | a hit at or beyond the threshold gives no answer, whatever the FAQ holds |
| Faq.RetrieveOutOfRange | embeddings.py:123-128 | an accepted hit whose ordinal is out of range raises IndexError instead of answering "Can you repeat it?" |
| Faq.DefaultThresholdBands | embeddings.py:113-132 | with thresholds 0.7 and 1.19999 an accepted hit never sets the learn flag; misses up to 1.19999 give `(None, False)`, beyond it `(None, True)` |
| Faq.NoKeyErrorWhenMapCoversFaq | embeddings.py:124 | when the map holds every FAQ question the lookup never raises KeyError |
| Faq.LoadedHitAnswersLastRow | embeddings.py:101-124 | after loading a CSV, a close hit on the ordinal of the last row for its question returns that row's answer |
| Faq.KnowledgebasePath | embeddings.py:79-84 | definition: `\prompts\{kb.lower()}\` followed by `{kb}-knowledge.csv`, without the module directory prefix |
| Faq.IndexWriteName | embeddings.py:98 | definition: the written index name `{kb.lower()}-faiss.index` |
| Faq.IndexReadName | embeddings.py:33 | definition: the read index name `{kb}-faiss.index` |
| Faq.KnowledgebasePathInjective | embeddings.py:78-84 | different scenario names never share a CSV path |
| Faq.KnowledgebasePathShape | embeddings.py:78-84 | the path ends in `"{kb}-knowledge.csv"` inside a directory named `kb.lower()` |
| Faq.IndexNamesAgreeIff | embeddings.py:98 | the written name `"{kb.lower()}-faiss.index"` equals the name read at line 33 exactly when `kb` has no upper-case letter |
| Faq.BankIndexNamesDiffer | embeddings.py:33 | for the scenario "Bank" the index is read under a different name from the one it was written under |
| Faq.IndexWriteNameCollidesIff | embeddings.py:98 | two knowledge bases write the same index file exactly when their names are equal after lower-casing, so "Bank" and "bank" overwrite each other |
| Faq.Embeddings.constructor | embeddings.py:13-28 | knowledge base defaults to "clone", JSON name follows it, empty map, index and pending list, no path, no FAQ, learn threshold 1.19999 |
| Faq.Embeddings.Flush | embeddings.py:38-54 | resets map, FAQ, knowledge base, path, JSON name and index, and keeps the pending list; raises TypeError and changes nothing when the JSON name is already None |
| Faq.Embeddings.InitializeAgain | embeddings.py:72-76 | records the knowledge base, JSON name and path, then loads FAQ and map from the CSV; a missing file raises after the names are set, leaving FAQ and map as they were |
| Faq.Embeddings.InitKnowledgebasePath | embeddings.py:78-84 | the path is the knowledge-base CSV path of the name |
| Faq.Embeddings.GetFaq | embeddings.py:101-107 | the loop returns the questions in row order and writes every row into the map, last write winning; every returned question is a key; a missing file raises FileNotFoundError |
| Faq.Embeddings.GenerateFaqEmbedding | embeddings.py:91-99 | the loop adds one entry per FAQ question in order, so ordinal i is `faq[i]` on an empty index; returns the written index name; TypeError without a FAQ, AttributeError without a knowledge base |
| Faq.Embeddings.GetAnswerFromEmbedding | embeddings.py:113-132 | the retrieval decision for the oracle's nearest hit on the lower-cased input |
| Faq.Embeddings.Learn | embeddings.py:134-135 | appends the pair to the pending list |
| ActiveLearning.Record | learner.py:37-38 | definition: `'q';'a';path` then a newline, then an empty line |
| ActiveLearning.Log | learner.py:35-39 | definition: the `samples.txt` content after appending the records of the samples in order |
| ActiveLearning.LogAppend | learner.py:35-38 | the log of two runs of samples is the log of the first followed by that of the second |
| ActiveLearning.PairsAppend | learner.py:23 | processing a sample adds exactly its `(question, answer)` pair to the seen-set |
| ActiveLearning.PairsBound | learner.py:23 | the seen-set never has more members than samples were processed |
| ActiveLearning.RecordRoundTrip | learner.py:37-38 | a record `'q';'a';path` plus two newlines parses back to question, answer and path when the texts hold no quote and the path no newline |
| ActiveLearning.Learner.constructor | learner.py:6-13 | empty queue and seen-set, not stopped, empty log, file `samples.txt` |
| ActiveLearning.Learner.AddSample | learner.py:15-16 | enqueues at the back only; seen-set, stop flag and log unchanged |
| ActiveLearning.Learner.Step | learner.py:18-29 | a stop request ends the loop and changes nothing; an empty poll changes nothing; otherwise the oldest sample is taken, its pair added to the seen-set and its record appended, even when the pair was already seen |
| ActiveLearning.Learner.StopActiveLearning | learner.py:31-33 | sets the stop flag |
| ActiveLearning.Learner.WriteSample | learner.py:35-39 | appends exactly the sample's record to the log |
| ActiveLearning.SeenSetBounded | learner.py:23 | in any reachable learner the seen-set is no larger than the number of samples processed |
| ActiveLearning.LogInSubmissionOrder | learner.py:22-24 | the log holds the records of the processed samples in submission order |
| Conversation.Greeting | llm.py:55 | definition: `"Hello {name}, its Jason from {purpose}."` |
| Conversation.RemoveSpaces | llm.py:108 | the result holds no space and every other character of the prompt |
| Conversation.RemoveSpacesAppend | llm.py:108 | removing spaces distributes over concatenation |
| Conversation.RemoveSpacesNoSpace | llm.py:108 | a text without spaces is left unchanged |
| Conversation.SpanDigits | llm.py:108 | splits off the longest all-digit prefix |
| Conversation.SplitFirstRun | llm.py:108-110 | no match exactly when there is no digit; otherwise non-digits, then a maximal non-empty run of digits, then the rest |
| Conversation.FirstRunUnique | llm.py:108 | any split into non-digits, a maximal digit run and the rest is the one found, so the first run is uniquely determined |
| Conversation.DigitsValue | llm.py:112 | definition: `int(digits)` for a run of ASCII digits, most significant first |
| Conversation.DigitsValueZeroIff | llm.py:112 | `int(digits) == 0` exactly when every digit is '0' |
| Conversation.ValidateNumber | llm.py:106-126 | a message exactly when the purpose is Bank or Hospital and the space-free prompt has a digit, and it is one of the five validator messages |
| Conversation.BankRule | llm.py:111-118 | Bank: all zeros is "not a real number", otherwise six digits (leading zeros counted) are accepted, any other length asks for six digits |
| Conversation.HospitalRule | llm.py:119-125 | Hospital: the same rule with nine digits and its own messages |
| Conversation.SpacesIgnored | llm.py:108 | a space anywhere in the prompt does not change the validator's answer |
| Conversation.ZerosRejected | llm.py:112-121 | a prompt of zeros only, e.g. "000000", is not a real number for either purpose |
| Conversation.ContainsBye | llm.py:132 | definition: `'bye' in s.lower()` |
| Conversation.AcceptedMessagesSayBye | llm.py:115-133 | both acceptance messages contain "bye" in lower case, so an accepted number ends the conversation |
| Conversation.AddSampleForLearning | llm.py:16-18 | enqueues exactly `(prompt, answer, path)` on the learner and nothing else |
| Conversation.Llm.constructor | llm.py:22-34 | empty history with the current role, fresh embeddings for "clone", no embedding yet, persona "Donald", no greeting, not finished, no purpose |
| Conversation.Llm.InitializeNewAttack | llm.py:43-56 | sets persona, purpose, knowledge base and JSON name `"{purpose}.json"`; on success reloads the FAQ, installs the role and appends exactly the greeting `"Hello {name}, its Jason from {purpose}."`; a missing CSV raises before the history is touched |
| Conversation.Llm.StartTranscript | llm.py:50-56 | files the transcript under the name, installs the role, clears the embedding flag and appends the greeting |
| Conversation.Llm.GetInitMsg | llm.py:58-59 | the greeting |
| Conversation.Llm.IsConversationDone | llm.py:103-104 | the termination flag |
| Conversation.Llm.GetTranscript | llm.py:36-37 | the transcription of the engine's history |
| Conversation.Llm.ActionsForNextState | llm.py:128-133 | the flag becomes old flag or "bye" in the lower-cased answer or prompt; a sample is queued exactly when retrieval asked for learning |
| Conversation.Llm.GetAnswer | llm.py:67-101 | a finished conversation answers "The conversation is done. Have a great day!" and changes nothing, the JSON name included; otherwise exactly one user turn then one assistant turn holding the answer; FAQ hit before validator before chain, the chain consulted only when both give nothing; the embedding built on the first active turn only; termination and learning as in `ActionsForNextState`; errors keep the recorded prompt |
| Conversation.Llm.ActiveTurn | llm.py:69-98 | one turn of an unfinished conversation, with the same answer, recording, embedding and error behaviour as `GetAnswer`; FAQ, map, names, JSON name and pending list are kept |
| Conversation.Llm.EnsureEmbedded | llm.py:70-72 | builds the index from the FAQ only when not yet built; the flag is set only when building does not raise |
| Conversation.Llm.Respond | llm.py:74-98 | the answer priority, the recorded assistant turn, termination and the learning sample once the prompt is recorded |
| Conversation.ValidEngineNoKeyError | embeddings.py:124 | in a well-formed engine every listed question has its answer in the map, so retrieval never raises KeyError |
| Conversation.GenerateNewAttack | llm.py:140-145 | a new engine with exactly one assistant turn, the greeting, and not finished; no engine when the knowledge base is missing |
| Sessions.User.constructor | models.py:16-26 | not in an attack, counter 0, no engine, attack, attack type, transcript or answer |
| Sessions.User.IsRestartSession | models.py:30-38 | below three attempts it counts and returns False; at three it resets the counter to 0 and ends the attack, returning True; with no engine the end raises AttributeError after the reset; the counter stays in 0..2 |
| Sessions.User.StartNewAttack | models.py:40-46 | sets the in-attack flag, clears the transcript, records the type; on success a fresh engine, the attack record and the greeting as current answer, with the flag and the engine paired; with no knowledge base it raises with the flag set and engine and attack unchanged; the counter is not reset |
| Sessions.User.Attach | models.py:45-46 | takes the new engine and shows its greeting |
| Sessions.User.EndAttack | models.py:48-53 | copies the engine's transcription, then clears flag, attack, engine and type, restoring the pairing; raises AttributeError and changes nothing without an engine |
| Sessions.User.GetAnswerFromLlm | models.py:55-58 | stores exactly the returned answer as current answer and changes no other user field; AttributeError without an engine |
| Sessions.FailedStartThenRestart | models.py:30-53 | after a start whose knowledge base is missing the user is in an attack without an engine, answering raises, and the third restart attempt resets the counter but raises in `end_attack` |

## Left out

- I/O is not modelled as effects: writing the transcript, the JSON map, the FAISS index, `samples.txt` and appends to the knowledge-base CSV. Where content is written, the model returns or accumulates that text.
- The Telegram transport, audio handling, scraping, WhatsApp and e-mail are outside the core.
- The sentence encoder, FAISS `IndexFlatL2` and float32 distances are replaced by the `search` oracle. It is queried with the lower-cased prompt, and distances are real numbers. The oracle also stands for `faiss.read_index` (embeddings.py:32-35) and never fails, so a failing index read, such as a missing file or `Bank-faiss.index` on a case-sensitive file system when only `bank-faiss.index` was written, and the RuntimeError it raises are not modelled.
- The Ollama model and the LangChain `chain.invoke` are the `chain` oracle. The chain never raises in the model.
- `prompts/prompts.py` is not part of this model. The role template is an opaque string passed in. `Prompts.set_role` also updates a module-level role before the CSV is read; that global is not kept.
- A missing role file `{purpose.lower()}/{purpose}Role.txt` is not modelled. `Prompts.set_role` would raise FileNotFoundError before `purpose` is set and before the CSV is read; the `role` parameter is always present.
- The learner thread, `Queue.get(timeout=5)` blocking and `join` are modelled by the sequential `Step`. A timeout is a step that changes nothing.
- pandas parsing is modelled as rows whose cells are present or missing (`NaN`). Header handling, quoting and cell typing are left out.
- `str.lower()` maps ASCII letters only. The `\d` digit class is ASCII digits only, whereas Python also accepts other Unicode digits.
- Faq.KnowledgebasePath: the absolute module directory prefix is dropped. The path is joined as on Windows, where the directory already ends in a backslash. On POSIX, `os.path.join` would also insert a `/`.
- The `knowledgebase is None` branch of `init_knowledgebase_path` cannot be reached, because `knowledgebase.lower()` raises first. The model takes a string.
- `embeddings.flush` starts and joins a review thread for the pending list. Only its state reset is modelled.
- The static, `input()`-driven `apply_active_learning` in `embeddings.py` is interactive and is left out.
- `add_system_message` and `update_chat_history` store objects that `get_transcription` cannot unpack, and nothing in the core calls them.
- `Llm.flush`, `Llm.get_chat_history`, `generate_knowledgebase` and `get_general_answer` are not called by the modelled code paths.
- The `Attack` record keeps its scenario and profile name only. The engine it builds is never used, so only its failure is modelled: it is the call that raises on a missing knowledge base.
- `get_chat_history` returns the live list, so callers see later appends. The model returns a value copy; no caller mutates it.
