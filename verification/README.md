# Dietary-restrictions assistant: session and prompt model

A Dafny model of the logic layer of a Streamlit chat assistant for people with
dietary restrictions (`main.py`). The user fills in an onboarding form (name,
restrictions chosen from a catalog plus an "Outra" free-text option, notes).
That form becomes a `UserProfile`, and the profile is rendered into a
Portuguese system prompt. Each chat question is then forwarded, with the whole
transcript as context, to a language model. The answer is appended to the
transcript and the conversation is archived in `chat_history`.

Modules:

- `Wrappers`: `Option` and `Result`.
- `Text`: Python's `str.join`, and a substring predicate (`Contains`) with its
  composition lemmas.
- `Profile`: the `UserProfile` record, the onboarding form's validation and the
  merge of the "Outra" free text into the selected list.
- `Prompt`: the restriction catalog (an abstract map from name to description
  and ingredients), `_format_restrictions` and `create_system_prompt`. The
  prompt's fixed text is a `Template` value. Its pieces go around the name,
  the restrictions block and the notes. The assistant's own text is the
  constant `SourceTemplate`, which keeps the source's line breaks and
  eight-space indentation. The catalog and the template together form the
  `Config` that the operations take, so every property is proved for any
  catalog and any template text.
- `Session`: the five session keys (`onboarding_complete`, `user_profile`,
  `messages`, `processing_message`, `chat_history`), their initialisation,
  onboarding, the guarded submit, the reset, the model context, the rendered
  transcript and the page dispatch of `main()`, with an invariant proved over
  every sequence of page runs.

The language model is a parameter `llm: string -> Option<string>`. `None`
stands for the exception that `get_assistant_response` catches and turns into
`None`. A reply is used only when it is truthy (present and non-empty), as in
`if response:`.

Points where the code's behaviour is easy to misread, and how the model follows it:

- Restrictions are a list in selection order, not a set.
- `additional_notes` from the form is always a string, possibly empty. The
  empty string gets the placeholder through `or`, exactly like a missing note.
- An empty chat input never enters the handler at all (`if prompt := ...`), so
  the in-flight flag is not touched on that path.
- The context sent to the model holds the new prompt twice. The user message
  is appended before the context is built, and the context then appends
  `"\nUsuário: " + prompt` again (`Session.ContextRepeatsPrompt`).
- A history snapshot holds no timestamp.

## Model

| member | source | states |
|---|---|---|
| Profile.WithoutOther | main.py:123 | the filtered selection is no longer than the selection, never contains "Outra", and holds only selected names |
| Profile.WithoutOtherAppend | main.py:123 | filtering distributes over concatenation, so the kept names stay in selection order |
| Profile.WithoutOtherCounts | main.py:123 | every name other than "Outra" is kept exactly as many times as it was selected; "Outra" is kept zero times |
| Profile.WithoutOtherMembers | main.py:123 | a name is in the filtered list if and only if it was selected and is not "Outra" |
| Profile.WithoutOtherIdentity | main.py:123 | a selection without "Outra" is left unchanged |
| Profile.MergeRestrictions | main.py:122-125 | the final list starts with the filtered selection. It has one extra element exactly when "Outra" was selected with non-empty text, and that last element is the free text. A name is in the list iff it was selected and is not "Outra", or it is that free text. An empty string appears only if it was selected |
| Profile.BuildProfile | main.py:117-132 | the form is rejected if and only if the name or the selection is empty; otherwise the profile has that name, the merged list and the notes text |
| Profile.OnlyOtherWithEmptyText | main.py:123-125 | selecting only "Outra" with an empty text box gives a profile with no restriction |
| Prompt.EntryStartsWithBullet | main.py:76-82 | every entry rendered by `FormatEntry` opens with "- " and the restriction's name, whether or not the name is a catalog key |
| Prompt.FormatEntries | main.py:74-82 | one entry per restriction, the i-th entry being the rendering of the i-th restriction |
| Prompt.EntryRoundTrip | main.py:77-82 | for a name without line breaks, the name can be read back from its entry, and the entry has a line break exactly when the name is a catalog key |
| Prompt.EntryDetails | main.py:77-80 | a catalog key's entry contains its description and every common ingredient |
| Prompt.FormatRestrictionsMentions | main.py:74-83 | `_format_restrictions`, modelled as `FormatRestrictions`: the joined block contains a bullet for every restriction, plus the description and every ingredient of each catalog key |
| Prompt.NotesText | main.py:58 | the notes text is never empty: non-empty notes are used verbatim, and a missing or empty note gives the placeholder |
| Prompt.FillMentions | main.py:51-72 | for any template text, the filled prompt opens with the greeting and the name, and contains the name, everything in the restrictions block, and the notes text |
| Prompt.SystemPrompt | main.py:50-52 | the prompt opens with the template's greeting followed directly by the user's name |
| Prompt.SystemPromptMentions | main.py:50-58 | the prompt contains the name, a bullet for every restriction, the description and every ingredient of every catalog restriction, and the notes text |
| Prompt.SystemPromptNotes | main.py:57-58 | non-empty notes appear verbatim in the prompt; otherwise the placeholder appears |
| Session.Initialize | main.py:37-48 | keys already in the store keep their values, and absent keys get the defaults (not onboarded, no profile, no messages, not processing, no history) |
| Session.InitializeKeepsSession | main.py:46-48 | re-initialising a fully populated store gives back the same session |
| Session.Reset | main.py:213-215 | after the reset nothing of the previous session survives: the session is not onboarded, has no profile, no messages, no history and nothing in flight |
| Session.CompleteOnboarding | main.py:117-137 | a rejected form changes no key; an accepted one stores the built profile, marks onboarding complete and makes the system prompt the only message; the flag and the history are untouched either way |
| Session.ModelContext | main.py:245-247 | the context starts with the first message's content and ends with "\nUsuário: " plus the prompt |
| Session.ContextRepeatsPrompt | main.py:246-247 | after the user message is appended, the context is the old transcript joined, a newline, the prompt, the label, and the prompt again, so the prompt occurs at two positions |
| Session.MessagePairs | main.py:266 | the snapshot keeps one pair per message, in order: its class name (`TypeName`, `type(msg).__name__`) and its content |
| Session.SaveChatHistory | main.py:257-272 | only the history changes; with a profile, exactly one entry with the profile fields and the whole transcript is appended; without a profile nothing is appended |
| Session.BeginSubmit | main.py:177-182 | the in-flight flag is raised and exactly the user message is appended; nothing else changes |
| Session.FinishSubmit | main.py:186-196 | the flag is lowered on every outcome. A truthy reply appends exactly one assistant message and archives one snapshot of the profile fields and the resulting transcript; without a profile nothing is archived. Otherwise the transcript and the history are unchanged |
| Session.Submit | main.py:174-197 | an empty prompt, or one that arrives while another is in flight, changes nothing. Otherwise the flag ends lowered and the transcript gains the user message. The assistant message is added exactly when the model's reply for the built context is truthy. With such a reply and a profile, the history gains exactly one entry: the profile's name, restrictions and notes and the final transcript. In every other case the history is unchanged. The profile and onboarding flag never change |
| Session.InFlightGuard | main.py:177-178 | a submit that arrives while a prompt is in flight is a no-op |
| Session.Bubbles | main.py:166-172 | at most one bubble per message; when there is no system message, one bubble per message with its content, a user bubble exactly for human messages |
| Session.VisibleSkipsSystemPrompt | main.py:163-172 | `display_chat_messages`, modelled as `Visible`: in a well-formed onboarded session every message except the first (the system prompt) is shown, in order, with the right role |
| Session.InitialWellFormed | main.py:37-48 | the fresh session satisfies the session invariant |
| Session.StepPreservesWellFormed | main.py:289-295 | `main()`'s dispatch, modelled as `Step`, keeps the invariant on every page run: nothing is in flight, a profile is stored exactly when onboarded, and the transcript opens with that profile's system prompt and holds no other system message. While the user stays onboarded, the profile and the first message never change |
| Session.RunPreservesWellFormed | main.py:289-295 | every session reachable by page runs is well formed and has nothing in flight |
| Session.FirstExchangeArchived | main.py:186-189 | a successful first question archives exactly three messages: the system prompt, the question and the answer |

## Left out

- Streamlit widgets, layout, `st.rerun`, spinners and error banners are UI
  plumbing. `main()`'s choice between the onboarding form and the chat page
  is kept as `Session.Step`.
- The Ollama client is a network call. It is the parameter `llm`, and `None`
  stands for the exception path.
- Logging, `json.dumps` and `datetime.now().isoformat()` are I/O or
  non-deterministic. `save_user_profile` only logs, so it has no effect on the
  model, and history snapshots carry no timestamp.
- The contents of the restriction catalog live in a resources module that is
  not part of this model. The catalog is an abstract `map`.
- The `except` branch of `handle_user_input` catches only what
  `get_assistant_response` and `save_chat_history` do not already catch
  themselves, which here is nothing the model can raise. Its only effect is
  the `finally` that lowers the flag, and that is modelled.
- The text of the guidelines and response-format block is written out as a
  constant, but no property is stated about its wording.
