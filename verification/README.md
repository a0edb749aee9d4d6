# Life Guide AI: session state and interaction journal

Life Guide AI is a single-page Streamlit app. A seeker states a faith
tradition, picks a path ("Find Help", "Seek Purpose", "Reflect Within",
"Discover Peace") and writes a concern. The app sends a prompt to a generative
model and shows the reply. Around that exchange the script keeps a small
per-session state:

- the journal of past exchanges (`user_data`);
- the remembered preferences;
- the reminder latch;
- the notification counter;
- the custom background path and the current background type.

This project models that state and its transitions as pure Dafny functions
over an immutable `SessionState`. It also models:

- the nine-entry faith-theme catalog;
- the free-text faith matcher behind the "Scripture BG" button;
- the hourly reminder gate;
- the newest-first history view with its fixed-length snippets;
- the file-extension to MIME-type mapping.

Modules:

- `Wrappers`: `Option`, for values that may be absent.
- `Text`: ASCII case folding (`str.lower`), substring containment
  (Python's `in` on strings, with a positional characterisation), `rfind`, and
  the prefix slice `s[:n]`.
- `FaithCatalog`: the nine themes in declaration order, exact key lookup.
- `Resolver`: case-blind, two-way substring matching of the typed faith
  against each key, first match in declaration order. It is given both as a
  recursive function and as the source's `for … break / else` loop.
- `Reminder`: the latch `reminder_triggered` against the hours
  9, 12, 15, 18 and 21, and runs of successive polls.
- `Notifications`: the counter bumped once per notification.
- `Journal`: entries, snippets, history cards, and the reversed listing.
- `Mime`: `Path(p).suffix` and the suffix to MIME-type table.
- `Session`: the session record and one script rerun (`Step`): reminder poll,
  background sidebar, preference sidebar, then the pressed button. Also runs of
  several reruns.

Outside effects are inputs. These are the current hour, whether an image URL
answered with status 200, whether a file exists and can be read, the
generative model's reply or error, and the timestamp.

Behaviours of the code that the model keeps as they are:

- The reminder keeps a boolean latch, not the hour it last fired. Two polls
  at 9 and 12 with no poll outside the schedule between them fire once
  (`Reminder.ConsecutiveScheduledHoursShareLatch`).
- History snippets always end in `"..."`, even when nothing was cut
  (`Journal.SnippetShortAndLong`).
- The preference sidebar assigns both preferences from its widgets on every
  rerun. A ticked "Remember my preferences" box adds one notification on every
  rerun (`Session.ShowPreferences`).
- The background type and the custom path are two independent fields. A
  failed upload after a local file was applied leaves the type "custom" with
  no path (`Session.CustomTypeWithoutPath`).
- The sidebar's scripture theme is looked up with `FAITH_BACKGROUNDS[key]`,
  where the key comes from a select box over the catalog's keys. The model
  states this as a precondition: the key is a catalog key.
- The "Scripture BG" button shows no notification when the image cannot be
  fetched. The sidebar's "Apply Scripture Background" button shows an error
  notification in the same case.
- The faith preference that a successful sidebar apply stores is replaced in
  the same rerun by the value of the preference sidebar's text box
  (`Session.Step`).

## Model

| member | source | states |
|---|---|---|
| FaithCatalog.KeysDistinct | life_guide_scripture.py:34-71 | the catalog has nine themes and no two share a name, so it is a well-formed dictionary |
| FaithCatalog.Keys | life_guide_scripture.py:326 | the key list has one name per theme, in declaration order |
| FaithCatalog.Lookup | life_guide_scripture.py:333 | exact lookup succeeds exactly for catalog keys and returns the theme with that name |
| FaithCatalog.LookupKeys | life_guide_scripture.py:326-333 | looking up the i-th key returns the i-th theme (keys and lookup are inverse) |
| Text.ContainsIffOccurs | life_guide_scripture.py:521 | the left-to-right scan for `needle in hay` holds exactly when the needle occurs at some index of the haystack |
| Resolver.Matches | life_guide_scripture.py:521 | the typed faith matches a key iff one lower-cased string occurs at some position of the other |
| Text.LowerIsLower | life_guide_scripture.py:521 | a lower-cased string holds no ASCII upper-case letter |
| Text.LowerIdempotent | life_guide_scripture.py:521 | lower-casing twice equals lower-casing once |
| Text.AbsentCharNotContained | life_guide_scripture.py:521 | a needle holding a character the haystack lacks is not contained in it |
| Text.Take | life_guide_scripture.py:396 | `s[:n]` is a prefix of `s` of length min(n, len(s)) |
| Resolver.MatchesSymmetricAndCaseBlind | life_guide_scripture.py:521 | matching is symmetric in its two arguments and unaffected by lower-casing either side |
| Resolver.FirstMatchFrom | life_guide_scripture.py:519-527 | the result is a matching index with no matching index before it, or none when no key from the start index on matches |
| Resolver.Resolve | life_guide_scripture.py:519-527 | a theme is found iff some key matches, and it is the first matching key in declaration order |
| Resolver.ResolveLoop | life_guide_scripture.py:520-527 | the loop returns the first matching key index and stops there, or none when no key matches; it finds the same index as `FirstMatchFrom` |
| Resolver.ResolveDependsOnlyOnMatches | life_guide_scripture.py:519-527 | two texts that match exactly the same keys resolve to the same theme, or both to none |
| Resolver.ResolveCaseBlind | life_guide_scripture.py:521 | typing the faith in any case resolves to the same theme |
| Resolver.ResolveHindu | life_guide_scripture.py:519-525 | "hindu" resolves to Hinduism because it is contained in the key |
| Resolver.ResolveUpperCase | life_guide_scripture.py:519-525 | "BUDDHISM" resolves to Buddhism; the three earlier keys do not match |
| Resolver.ResolveTieGoesToFirstKey | life_guide_scripture.py:520-525 | "ism" matches Hinduism, Buddhism and Atheism, and the first in declaration order wins |
| Resolver.ResolveNoMatch | life_guide_scripture.py:526-527 | "xyz" matches no key, so nothing resolves |
| Reminder.Check | life_guide_scripture.py:302-311 | the reminder fires iff the hour is scheduled and the latch is clear; a scheduled hour leaves the latch set, any other hour clears it |
| Reminder.LatchedScheduledHourIsQuiet | life_guide_scripture.py:304-309 | in a scheduled hour with the latch set nothing fires and the latch stays set |
| Reminder.SecondPollSameHourQuiet | life_guide_scripture.py:304-311 | polling the same hour twice never fires the second time |
| Reminder.AtMostOncePerScheduledStretch | life_guide_scripture.py:302-311 | over any run of polls all in scheduled hours the reminder fires at most once, and never if the latch was set |
| Reminder.UnscheduledPollRearms | life_guide_scripture.py:310-311 | after any history, a poll outside the schedule followed by a scheduled one makes the latter fire |
| Reminder.RearmExample | life_guide_scripture.py:302-311 | polls at 9, 9, 10, 9 fire at the first and last poll only |
| Reminder.ConsecutiveScheduledHoursShareLatch | life_guide_scripture.py:304-311 | polls at 9 then 12 with nothing between fire only at 9, because the latch is a boolean |
| Notifications.Notify | life_guide_scripture.py:277-279 | each notification raises the counter by exactly one, whatever its kind |
| Notifications.NotifyAllCounts | life_guide_scripture.py:277-279 | showing n notifications raises the counter by exactly n |
| Notifications.KindIrrelevant | life_guide_scripture.py:277-287 | the notification kinds never affect the count |
| Notifications.NotifyMonotone | life_guide_scripture.py:277-279 | the counter never decreases and strictly grows with each further notification |
| Mime.TrimSlashes | life_guide_scripture.py:105 | the trimmed path is a prefix of the path, does not end in `/`, and only `/` was removed |
| Mime.Name | life_guide_scripture.py:105 | the final path component holds no `/` and is the tail of the trimmed path that starts at its beginning or right after a `/` |
| Mime.Suffix | life_guide_scripture.py:105 | a non-empty suffix is a proper tail of the name: a dot, at least one character, no further dot or `/`; the suffix is empty iff every dot strictly inside the name has another dot after it |
| Mime.MimeType | life_guide_scripture.py:105-113 | the type is one of JPEG, PNG, GIF; PNG iff the lower-cased suffix is `.png`, GIF iff it is `.gif`, JPEG otherwise |
| Mime.MimeTypeCaseBlind | life_guide_scripture.py:105 | suffixes equal up to case give the same MIME type |
| Mime.MimeTypeUpperCasePng | life_guide_scripture.py:105-109 | a `.PNG` file is PNG |
| Mime.MimeTypeDotInDirectory | life_guide_scripture.py:105-113 | a dot in a directory name is not a suffix; the file falls back to JPEG |
| Mime.MimeTypeHiddenFile | life_guide_scripture.py:105-113 | a file named `.png` has no suffix and falls back to JPEG |
| Journal.LabelInjective | life_guide_scripture.py:479-484 | distinct paths have distinct labels |
| Journal.Snippet | life_guide_scripture.py:396-399 | a snippet is a prefix of at most the limit followed by `"..."`, its length is min(len, limit) + 3 |
| Journal.SnippetDeterminesPrefix | life_guide_scripture.py:396-399 | two texts show the same snippet iff their first `limit` characters agree |
| Journal.SnippetShortAndLong | life_guide_scripture.py:396-399 | short text is kept whole and still gets the marker; long text is cut to exactly the limit |
| Journal.ConcernSnippetExamples | life_guide_scripture.py:396 | a 200-character concern shows 150 characters plus marker; a 100-character one shows whole plus marker |
| Journal.CardFor | life_guide_scripture.py:389-400 | a card carries its number, the entry's faith, path label and full timestamp, both snippets as prefixes of length min(len, limit) followed by the marker, and a title of the path label and the timestamp's first ten characters |
| Journal.Reverse | life_guide_scripture.py:389 | position i of the reversal holds element n-1-i of the input |
| Journal.ReverseInvolutive | life_guide_scripture.py:389 | reversing twice restores stored order |
| Journal.ShowHistory | life_guide_scripture.py:381-402 | an empty journal shows the welcome line; otherwise the total is the journal's length and card i (from 0) is entry n-1-i numbered i+1 |
| Journal.HistoryIsReverseOfJournal | life_guide_scripture.py:389 | read oldest first, card k is exactly the card of stored entry k, numbered n-k |
| Session.Notify | life_guide_scripture.py:277-279 | a notification raises the counter by exactly one and changes nothing else |
| Session.PollReminder | life_guide_scripture.py:290-311 | the session's reminder fires iff the hour is scheduled and the latch is clear; only the latch changes |
| Session.UploadPathInjective | life_guide_scripture.py:350 | two uploads are saved under the same path iff their file names are equal |
| Session.BackgroundSettings | life_guide_scripture.py:314-378 | the background type changes only on a successful apply (the default option always applies); the notification and path effects per option; the faith preference becomes the theme's key exactly when a scripture theme is applied, and is kept otherwise |
| Session.FailedLocalLoadKeepsPath | life_guide_scripture.py:366-370 | a local file that exists but fails to load keeps its path while the background type is unchanged |
| Session.CustomTypeWithoutPath | life_guide_scripture.py:349-370 | after a local file is applied, a failed upload clears the path but the type stays custom |
| Session.ShowPreferences | life_guide_scripture.py:405-422 | both preferences are overwritten by the sidebar widgets, and the counter rises by one iff "remember" is ticked |
| Session.AutoBackground | life_guide_scripture.py:519-527 | empty faith does nothing; no match lists the nine keys and changes nothing; a match applies the faith theme with one notification only if its image loads |
| Session.ClearFormAsWritten | life_guide_scripture.py:529-533 | the button's first assignment targets a widget key created earlier in the run, so the run raises and the state is unchanged |
| Session.ClearForm | life_guide_scripture.py:529-533 | as intended: clearing adds one notification and changes no other session state |
| Session.ClearFormAsWrittenRaises | life_guide_scripture.py:529-533 | for every state, the written button raises with one notification fewer than the intended one |
| Session.SeekGuidance | life_guide_scripture.py:535-607 | one notification always; the journal gains exactly one entry holding faith, path, concern, reply and timestamp iff both fields are filled and the model replied; the faith preference is saved iff the form is complete and "remember" is ticked |
| Session.Step | life_guide_scripture.py:449-607 | after one rerun the latch is set iff the hour is scheduled; the favourite path is the sidebar's; the faith preference is the form's faith after a complete "Seek Guidance" with "remember" ticked, else the sidebar's; the counter rises by one per notification of the sidebar, preferences and pressed button, with "Clear" taken as intended |
| Session.StepClearAgainstWritten | life_guide_scripture.py:455-533 | on a "Clear" press the rerun applies the intended button after the sidebars, while the written one raises there with one notification fewer |
| Session.StepAppendOnly | life_guide_scripture.py:449-607 | one rerun keeps the stored entries in place and appends one iff guidance was successfully received; the counter never decreases |
| Session.RunAppendOnly | life_guide_scripture.py:589-595 | over any sequence of reruns the journal is only extended at its end, by one entry per successful request, and the counter never decreases |
| Session.RunFromInitial | life_guide_scripture.py:74-96 | a session starting from the initial state holds, after any run, exactly one journal entry per successful request; its background type starts as "default" |
| Session.TypeNameInjective | life_guide_scripture.py:614 | the footer's background text tells the three background types apart |
| Session.BackgroundChangesOnlyOnApply | life_guide_scripture.py:314-378 | across a rerun the background type changes only through a successful sidebar apply or a successful "Scripture BG" press |
| Session.SuccessfulRequestScenario | life_guide_scripture.py:535-597 | a Buddhist seeking purpose gets exactly their entry appended, one notification, and their faith remembered |
| Session.FailedRequestScenario | life_guide_scripture.py:544-607 | a failed model call appends nothing and adds one notification, while the faith saved before the call stays saved |
| Session.IncompleteRequestScenario | life_guide_scripture.py:536-542 | an empty concern only warns: journal and preferences unchanged, one notification |
| Session.AutoBackgroundHindu | life_guide_scripture.py:519-525 | typing "hindu" applies the Hinduism theme when its image loads |
| Session.AutoBackgroundNoMatch | life_guide_scripture.py:526-527 | typing "xyz" lists the available faiths and leaves the state unchanged |

## Left out

- Rendering: page config, CSS and HTML strings, toasts and their icons, balloons, spinners, captions, expanders and the footer. These are presentation only.
- The reminder settings sidebar (`show_reminder_settings`). It only displays widgets and the counter and changes no state.
- The random choice of the reminder message. It is a nondeterministic choice, so the model records only whether a reminder fired.
- Reading files and URLs, base64 encoding, and `os.path.exists`. Each of these is an input boolean (load ok, fetch ok, file exists).
- Session.BackgroundSettings: takes the write of the uploaded file to `temp_bg_<name>` (lines 351-352) as succeeding. That write is outside any `try`, so a failed write would raise and end the run; the model has no input for it.
- The MIME type a URL fetch takes from the response's content-type header. It is part of the fetch, which is outside the model.
- The generative model call and its prompt text. The reply is an input: text, or an error raised anywhere in the call.
- `datetime.now()` and `time.sleep`. The hour and the timestamp are inputs.
- Session.Step: takes the "Clear" button as intended (`Session.ClearForm`), not as written; as written the run raises after the sidebars, and `Session.StepClearAgainstWritten` states the difference.
- The widget values (`faith_input`, `trouble_input`) and the `st.rerun()` of the intended "Clear" button. Widget values are not part of the modelled session state.
- The `background_image` session key. It is initialised and never used.
- Text.Lower: folds only ASCII letters. Python's `str.lower` also folds non-ASCII letters.
- Mime.Name: models trailing-slash removal and the last `/`. It does not model pathlib's collapsing of `.` components and repeated slashes.

## Findings

| source | as written | input that shows it | evidently intended | confidence | as-written member | corrected member |
|---|---|---|---|---|---|---|
| life_guide_scripture.py:529-533 | the "Clear" handler assigns `st.session_state.faith_input`, the key of the text input created at lines 472-477 in the same run; Streamlit raises `StreamlitAPIException` for that, so lines 531-533 never run | any rerun in which "Clear" is pressed | the form is emptied, "Form cleared!" shows (one notification) and the script reruns | not executed; rests on Streamlit's documented rule for widget keys | Session.ClearFormAsWritten, Session.ClearFormAsWrittenRaises | Session.ClearForm |
