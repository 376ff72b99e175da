# Prompt Architect: the Master Architect flow in Dafny

Prompt Architect ELITE is a Streamlit app. It turns a rough task into a
"master prompt" for a chat model, and can have the prompt critiqued and
compressed. It also stores prompts in a JSON vault file. This project models
the logic of that app and proves properties of it:

- **Password gate** (`session.dfy`). One comparison against the shared
  password sets the session's `authenticated` flag.
- **Strategy selector** (`strategy.dfy`). Substring tests on the domain label
  and the target label pick a domain rule and a structure rule.
- **Few-shot loader** (`few_shot.dfy`). A loop turns the rows of an uploaded
  table into `<example>` blocks.
- **Prompt composition** (`compose.dfy`, `text.dfy`). The system prompt and
  the user message are f-strings, modelled as literal text interleaved with
  values.
- **Pipeline** (`pipeline.dfy`, `session.dfy`). The draft, critic and diet
  stages update the session fields `master_prompt` and `critic_feedback`.
  The model provider is a function from request to reply, so each reply is
  the provider's answer to the exact request that was sent. The pipeline is
  specified by the function `Pipeline.Architect`. The method
  `Session.Session.ArchitectMasterPrompt` performs the same steps on the
  session object and is proved equal to that function.
- **Placeholder scanner** (`placeholders.dfy`). This is
  `re.findall(r'\{\{(.*?)\}\}', text)` written as a left-to-right scanner.
  The lemmas prove that it reports exactly the leftmost, lazy,
  non-overlapping matches, as defined by the predicate `MatchAt`.
- **Variable Wizard** (`wizard.dfy`). One input field per placeholder.
- **Vault** (`vault.dfy`). Loading returns the empty list for a missing or
  unreadable file. Saving puts the new entry at index 0 and writes the list
  back.

The model follows the code where it behaves differently from what a reader
of the app would expect:

- The placeholder list keeps repeats, so a name used twice gets two wizard
  fields with the same widget key (see "## Findings").
- An empty few-shot block adds no instruction to invent an example; the
  template line stays, with nothing after it.
- A table without the `Input` and `Output` columns is ignored and no error is
  shown.
- "General" and "Data Analysis" select no domain rule; only the Coding and
  Creative Writing options get one.
- There is no Legal domain and no search-first structure rule.
- A failed request does not always leave the session as it was. The fields
  are written as each reply arrives, so a failing diet request leaves the
  draft (critic off) or the critic's prompt and note (critic on) in the
  session. Only a failing draft or critic request changes nothing.

## Model

| member | source | states |
|---|---|---|
| Text.Render | app.py:138 | an f-string is rendered as its first literal, its values and literals in turn, and its last literal; the result starts with the first literal and ends with the last |
| Text.ContainsFrom | app.py:167-171 | Python's `sub in s` is true exactly when `sub` occurs at some position of `s` |
| Text.RenderInOrder | app.py:176-182 | the values of an f-string appear in the rendered text in order, without overlapping |
| Text.RenderLength | app.py:176-182 | a rendered f-string is as long as its literal text plus its values |
| Strategy.DomainFragment | app.py:166-168 | the Creative rule when the label contains "Creative"; otherwise the Coding rule when it contains "Coding"; otherwise empty, and empty exactly when neither word occurs |
| Strategy.CreativeWins | app.py:166-168 | a label containing both words gets the Creative rule, because that test runs last |
| Strategy.GeneralHasNoRule | app.py:151-168 | "General" selects no domain rule |
| Strategy.CodingOptionRule | app.py:151-167 | the Coding option selects the error-handling rule |
| Strategy.CreativeOptionRule | app.py:151-168 | the Creative Writing option selects the "Show Don't Tell" rule |
| Strategy.DataAnalysisHasNoRule | app.py:151-168 | the Data Analysis option selects no domain rule |
| Strategy.StructureFragment | app.py:170-174 | never empty; the XML-tags rule exactly when the target contains "Gemini", the Markdown-headers rule exactly otherwise |
| Strategy.TargetOptions | app.py:152-174 | the "Gemini (XML)" option selects XML tags and the "GPT-5 (Markdown)" option selects Markdown headers |
| FewShot.ExampleBlock | app.py:138 | one row becomes `<example>\nUSER: in\nAI: out\n</example>\n`, 33 characters longer than its two values |
| FewShot.FewShotBlock | app.py:132-138 | the block is empty exactly when there are no rows; its length is 33 per row plus the rows' values |
| FewShot.LoadExamples | app.py:130-140 | with both columns present, the loop builds the block of all rows and reports the row count; otherwise the block stays empty; an unreadable file gives the CSV error notice; a missing column gives no notice |
| FewShot.FewShotBlockAppend | app.py:137-138 | the block of two row runs is the first run's block followed by the second run's |
| FewShot.ExampleInPlace | app.py:137-138 | row `i`'s example block sits right after the blocks of rows `0..i-1`, so the block is the in-order concatenation |
| Compose.SystemPrompt | app.py:176-182 | starts with the persona lines, and contains in order the domain label, the domain rule, the structure rule and the few-shot block; its length is the template's plus the values' |
| Compose.UserMessage | app.py:187 | exactly `"Task: " + task + " Context: " + context`; the task and the context can be read back from their positions |
| Placeholders.FindClose | app.py:237 | the first `}}` after the opening braces, provided no line feed comes first; `None` exactly when a line feed comes before every later `}}` |
| Placeholders.FindCloseIsLazyMatch | app.py:237 | after `{{` at `i`, the closing-brace search returns `i+2+k` exactly when `MatchAt(i, k)`, the lazy match of the pattern |
| Placeholders.MatchIffClose | app.py:237 | a match starts at `{{` exactly when the closing-brace search succeeds |
| Placeholders.Scan | app.py:237 | the scan from position `i`: matches do not overlap and each spans at least four characters, so there are at most a quarter as many captures as characters left; ScanSkips, ScanTakes, ScanFindsLeftmost and ScanWithoutMatch pin down every capture |
| Placeholders.FindAll | app.py:237 | `re.findall` of the placeholder pattern: at most one capture per four characters, and every capture has no line feed, no `}}`, and occurs in braces in the text |
| Placeholders.CaptureIsWellFormed | app.py:237 | the capture of a match has no line feed and no `}}`, and occurs in braces in the text |
| Placeholders.CaptureFacts | app.py:237 | a capture has no line feed and no `}}`, and the capture wrapped in braces sits in the text where the match starts |
| Placeholders.CapturesAreWellFormed | app.py:237-240 | every reported name has no line feed and no `}}`, and `"{{" + v + "}}"` occurs in the text |
| Placeholders.ScanSkips | app.py:237 | where no match starts, the scan moves on by one character |
| Placeholders.ScanTakes | app.py:237 | where a match starts, the scan reports its capture and resumes after the closing braces |
| Placeholders.ScanFindsLeftmost | app.py:237 | the scan reports the leftmost match first and resumes after it, so matches do not overlap and come left to right |
| Placeholders.ScanWithoutMatch | app.py:237 | with no match from position `i` on, the scan reports nothing |
| Placeholders.NoOpenBracesNoPlaceholders | app.py:237-238 | a text without `{{` has no placeholders |
| Wizard.WizardFieldsAsWritten | app.py:236-240 | as written, one field per `re.findall` result, repeats included (RepeatsAreReported, RepeatedNameDuplicatesKey); every field's name occurs in braces in the prompt and has no line feed; nothing when the wizard is off |
| Wizard.RepeatsAreReported | app.py:237 | `"{{a}} {{b}} {{a}}"` gives `["a", "b", "a"]`: each occurrence is reported |
| Wizard.NoBracesNoFields | app.py:236-240 | a prompt without `{{` produces no wizard field |
| Wizard.WidgetKey | app.py:240 | a field's key is `var_` followed by the placeholder name, which can be read back from it |
| Wizard.RepeatedNameDuplicatesKey | app.py:236-240 | as written, `"{{a}} {{a}}"` gives two fields with the same key `var_a` |
| Wizard.Distinct | app.py:236-240 | dropping repeats keeps exactly the same names, each once |
| Wizard.DistinctFirstSeenOrder | app.py:236-240 | after repeats are dropped, the names come in the order of their first occurrence |
| Wizard.WizardFields | app.py:236-240 | when enabled, one field per placeholder name found, with pairwise distinct keys; nothing when disabled |
| Wizard.WizardFieldsInFirstSeenOrder | app.py:236-240 | the wizard's fields follow the first appearance of each name |
| Vault.LoadVault | app.py:45-50 | the stored list, or the empty list for a missing or unparsable file |
| Vault.AfterSave | app.py:52-62 | saving puts the entry at index 0 and keeps the previous entries after it in order; the length grows by one |
| Vault.SavesNewestFirst | app.py:52-62 | after a run of saves, the file lists them newest first, followed by the earlier list |
| Vault.SaveTwice | app.py:52-62 | saving E1 and then E2 lists E2 before E1 |
| Vault.VaultFile.Load | app.py:45-50 | reading the file gives the stored list, or the empty list |
| Vault.VaultFile.Save | app.py:52-62 | the returned list and the file are the new entry followed by the loaded list; the score defaults to "N/A" |
| Pipeline.DraftRequest | app.py:176-189 | the draft request goes to the chosen model with the composed system prompt and the user message |
| Pipeline.CriticRequest | app.py:195-201 | to the small model, the fixed rubric as system message, then the draft unchanged as user message |
| Pipeline.DietRequest | app.py:210-216 | to the small model, the fixed compression instruction, then the current master prompt unchanged |
| Pipeline.StageRequestsDiffer | app.py:195-216 | a critic request is never a diet request, whatever text each carries |
| Pipeline.CriticStage | app.py:193-205 | critic on: one more request; on success its reply becomes the master prompt and the note is set, on failure both fields stay as they were; critic off: the draft becomes the master prompt, nothing is sent and the note stays |
| Pipeline.DietStage | app.py:208-217 | only after a completed earlier stage with the diet on: one more request carrying the current master prompt; on success its reply replaces the prompt, on failure the fields stay; the note is never touched |
| Pipeline.Architect | app.py:159-217 | without a key nothing is sent and nothing changes; with a key the draft request goes first; at most one critic and one diet request follow; with the critic off, the note is unchanged; an error comes from the last request sent |
| Pipeline.MissingKeySendsNothing | app.py:159-161 | a missing API key gives the key error, and the result is the same whatever the provider would answer |
| Pipeline.DraftOnly | app.py:184-205 | with both stages off, the master prompt is the draft reply and the note is unchanged |
| Pipeline.CriticThenDiet | app.py:192-217 | with the critic on, its reply to the draft becomes the master prompt unread, and the note is set; with the diet on, the diet then receives that reply and its answer replaces it |
| Pipeline.DietOnDraft | app.py:204-217 | with the critic off and the diet on, the diet compresses the draft and the old note stays |
| Pipeline.DietFailureKeepsCritic | app.py:193-217 | a failing diet request ends the run, and the critic's prompt and note are kept |
| Pipeline.CriticFailureChangesNothing | app.py:193-203 | a failing critic request ends the run before either field is written |
| Pipeline.DietFailureKeepsDraft | app.py:204-217 | with the critic off, a failing diet request leaves the draft as the master prompt, because the draft is stored before the diet request is sent |
| Pipeline.DraftFailureChangesNothing | app.py:184-190 | a failing draft request ends the run and changes nothing |
| Session.AfterAttempts | app.py:24-28 | the flag after a run of password entries: once open it stays open, and an entry of the password opens it |
| Session.GateOpensOnPassword | app.py:24-28 | after a run of password entries, the session is unlocked exactly when it already was or one entry was the password |
| Session.NoAttemptLimit | app.py:24-34 | any number of wrong entries leaves the session locked, and the password still unlocks it |
| Session.Session.constructor | app.py:21-40 | a new session is locked, with an empty prompt, note and transcript |
| Session.Session.CheckPassword | app.py:24-28 | the password sets `authenticated`; any other input reports the error and leaves the flag unchanged |
| Session.Session.ArchitectMasterPrompt | app.py:159-217 | the button's effect on the session fields, its outcome and the requests it sends are exactly `Pipeline.Architect` of the old fields |
| Session.Session.SaveMasterPrompt | app.py:220-234 | "Save to Vault", shown only while there is a master prompt, stores it tagged with the domain label, with the default score |

## Findings

| source | as written | input that shows it | evidently intended | confidence | as-written member | corrected member |
|---|---|---|---|---|---|---|
| app.py:236-240 | one `st.text_input` per `re.findall` result, keyed `var_` + name | a master prompt containing `{{a}} {{a}}` yields two inputs that share the key `var_a`, which Streamlit refuses as a duplicate widget key | one input per distinct name, in first-seen order, so that widget keys stay unique | medium, not executed | Wizard.RepeatedNameDuplicatesKey | Wizard.WizardFields |

## Left out

- Page configuration, CSS, the sidebar, tabs, spinners, result display and the documentation page are rendering only.
- The chat-completion calls are foreign network calls. Each is a value of the provider function. Parameters that are only passed through are not modelled: `temperature=0.6` and the choice of `choices[0]`. A reply whose content is missing is not modelled.
- Voice transcription is left out: an audio upload sent to the provider, stored in `voice_text`, and used as the default text of the task box. The task text is an input of `Settings`.
- The Battle Arena and the Reverse Engineer are left out. Each is one pass-through request with a per-branch error message.
- The exported Python script is left out. It is a string built only for a download button.
- The vault page, which lists the loaded entries, is left out.
- `pd.read_csv` is a library call. The upload is given as its column names and its rows. Each cell is already text, so the stringification of numbers and empty cells is not modelled.
- JSON reading and writing and `os.path.exists` are file I/O. The file is the `Store` value. A JSON document that parses but is not a list is not modelled. Concurrent writers to the file, whose updates can be lost, are not modelled.
- The timestamp comes from the clock. It is a parameter, and its `%Y-%m-%d %H:%M` format is not modelled.
- Streamlit reruns the script on every interaction. Only the session fields persist across reruns, which is why the few-shot block, the fragments and the placeholder list are functions of their inputs. The unused `vault` session field is left out.
- Session.AfterAttempts: every entry counts as one call of the password check. Streamlit calls the `on_change` handler only when the field's value changes, so entering the same wrong password again shows no new error. The gate properties are the same either way, because a repeated wrong entry changes nothing.
- `st.stop()` after the login form is not modelled. While `authenticated` is false, none of the later code runs.
