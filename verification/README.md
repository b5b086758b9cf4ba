# Call Santa agent — a Dafny model

The Call Santa agent is a LiveKit worker. It joins a room, finds out who the
child is, and plays a fixed sequence of Santa and elf lines and sound effects.
Each line is synthesized speech, cut into 20 ms frames of 16-bit mono PCM at
24 kHz. A companion module turns a child's letter into five extra script lines.

This project models the deterministic parts of that agent and proves what they
promise:

- `audio.dfy` (module `Audio`) covers the framing loop of `speak` and
  `play_audio_file`. A PCM buffer is walked in 960-byte steps. Each full chunk
  becomes a frame tagged 24000 Hz, 1 channel and 480 samples, and is captured
  by the audio source. A trailing partial chunk is dropped. `Frames` is the
  specification function. `StreamFrames` is the loop, proved to capture exactly
  `Frames(raw)`. The lemmas give the count, the position of each frame, and the
  fact that the frames laid end to end are the buffer minus its last L mod 960
  bytes.
- `agent.dfy` (module `Agent`) covers the `SantaAgent` class. Its four caller
  fields are updated in place by `ParseMetadata`. Room metadata wins when it is
  non-empty. Otherwise the first participant with non-empty metadata is used.
  A missing key keeps the name, gender and relationship but clears the call id.
  A decoding failure changes nothing. The module also covers the engine used
  for each voice, the rule that only Santa gets the pitch/speed transform, the
  guards of `speak` and `play_audio_file`, and `child_term`.
- `admission.dfy` (module `Admission`) covers the job admission rule of
  `request_handler`.
- `letters.dfy` (module `Letters`) covers `format_behavior`, `format_snack` and
  `generate_letter_scripts`: how wishes are chosen and joined, and what each of
  the five scripts mentions.
- `text.dfy` (module `Text`) holds the Python string operations these rely on:
  `str.isspace`, the blank test `not s.strip()`, `str.lower` and `in`.
- `wrappers.dfy` (module `Wrappers`) holds `Option`.

Metadata and letters arrive as JSON. The model takes the decoded values as
input. A `Metadata` value pairs the raw metadata string with its decoded
object, which is `None` when decoding fails. The string decides whether a
source is consulted. The decoded object decides what is read.

`run` in `main.py` is a fixed linear sequence of awaited lines. There is no
phase state machine and no inbound message handling, so none is modelled.

## Model

| member | source | states |
|---|---|---|
| `Audio.MakeFrame` | main.py:219-225 | a full chunk becomes a frame holding exactly that chunk, tagged 24000 Hz, 1 channel, 480 samples; its byte length equals samples × channels × 2 |
| `Audio.Frames` | main.py:215-225 | every frame sent is a full 960-byte frame with the fixed tags; nothing shorter is ever sent |
| `Audio.FramesCount` | main.py:217-219 | a buffer of L bytes yields exactly floor(L / 960) frames |
| `Audio.FrameAt` | main.py:217-226 | frame k holds bytes [960k, 960(k+1)) of the buffer, so frames keep buffer order |
| `Audio.FramesConcat` | main.py:256-258 | the frames laid end to end equal the first 960·floor(L/960) bytes; exactly L mod 960 trailing bytes are dropped, never padded |
| `Audio.AudioSource.constructor` | main.py:128 | the audio source is created with the given rate and channel count and has captured nothing |
| `Audio.AudioSource.CaptureFrame` | main.py:226 | a captured frame is appended after all earlier ones |
| `Audio.StreamFrames` | main.py:252-266 | the framing loop captures exactly `Frames(raw)`, in order, after what was already captured |
| `Text.Lower` | main.py:452 | the model's ASCII-only lowering keeps the length and lowers each ASCII capital |
| `Text.IsSpace` | letter_support.py:97 | the whitespace characters of `str.strip`; no letter or digit is one |
| `Text.IsBlank` | letter_support.py:97 | `not w.strip()`: the empty string is blank, and a non-blank string has a non-whitespace character |
| `Text.Contains` | main.py:456 | Python's substring `in`: a contained needle is no longer than the text, and a prefix is contained |
| `Agent.ApplyMetadata` | main.py:104-107 | a present key sets its field; a missing `child_name`, `gender` or `relationship` keeps the current value; a missing `call_id` makes the call id `None` |
| `Agent.DecodeInto` | main.py:103-107 | metadata that fails to decode leaves the caller as it was; decoded metadata is read key by key |
| `Agent.ChosenMetadata` | main.py:102-113 | the chosen metadata is non-empty: the room's when its string is non-empty, else a participant's; none is chosen exactly when all strings are empty |
| `Agent.ParsedCaller` | main.py:102-120 | the reference definition `ParseMetadata` is proved against: no chosen metadata keeps the caller, otherwise the chosen metadata is decoded into it |
| `Agent.FirstWithMetadata` | main.py:112-113 | finds the first participant whose metadata string is non-empty, or reports that none has any |
| `Agent.RoomMetadataWins` | main.py:102-109 | non-empty room metadata alone decides; the participants' metadata does not matter |
| `Agent.FirstParticipantDecides` | main.py:111-120 | with empty room metadata, the first participant with non-empty metadata decides |
| `Agent.NoMetadataKeepsCaller` | main.py:80-83 | with no metadata anywhere the fields keep their values, which start as "friend", "child", "family", `None` |
| `Agent.DecodeFailureKeepsCaller` | main.py:122-123 | chosen metadata that fails to decode leaves all four fields unchanged |
| `Agent.SantaAgent.constructor` | main.py:75-91 | a new agent has the default caller and no TTS engines or audio source |
| `Agent.SantaAgent.ParseMetadata` | main.py:98-123 | the four caller fields become what the room-then-first-participant rule gives; nothing else changes |
| `Agent.SantaAgent.ReadMetadata` | main.py:114-118 | copies one decoded metadata object into the four fields, or changes nothing when decoding failed |
| `Agent.SantaAgent.SetupAudio` | main.py:125-139 | creates a fresh 24 kHz mono audio source with nothing captured |
| `Agent.SantaAgent.SetupTts` | main.py:141-153 | configures the Santa engine with the Santa voice model and the elf engine with the elf voice model |
| `Agent.SantaAgent.Speak` | main.py:164-233 | nothing is captured when the selected engine or the audio source is unset, or when the engine gives no audio; otherwise exactly the frames of the PCM, after the pitch/speed transform for Santa only; the voice defaults to "santa" |
| `Agent.SantaAgent.PlayAudioFile` | main.py:235-271 | a missing or undecodable file captures nothing; otherwise exactly the frames of the decoded PCM |
| `Agent.ChildTerm` | main.py:358 | the term is "boy" exactly when the gender is "boy", and "girl" otherwise |
| `Agent.DefaultChildTermIsGirl` | main.py:81 | the default gender "child" is greeted as a girl |
| `Agent.SelectTts` | main.py:166 | the "santa" voice gets the Santa engine, every other voice the elf engine |
| `Agent.SpokenPcm` | main.py:200-211 | only the "santa" voice's audio goes through the pitch/speed transform; any other voice's is framed as synthesized |
| `Agent.SantaEngineIffSantaVoice` | main.py:166 | with both engines set up, the Santa engine speaks exactly the "santa" voice and the elf engine every other voice |
| `Admission.DecideJob` | main.py:445-461 | a job is accepted iff the lowered `agent_type` is "santa", or `agent_name` is exactly "call-santa", or the lowered room name contains "santa" |
| `Admission.UnreadableMetadataUsesRoomName` | main.py:447-450 | empty or undecodable metadata counts as `{}`, so only the room name decides |
| `Admission.RoomNameCaseInsensitive` | main.py:456 | the room-name test gives the same decision for a name and its lowered form |
| `Admission.AgentNameIsCaseSensitive` | main.py:453-456 | for every room name without "santa", an agent name differing from "call-santa" only in case is rejected |
| `Admission.AgentTypeIsCaseInsensitive` | main.py:452 | any metadata whose agent type lowers to "santa" is accepted, whatever the room name |
| `Letters.FormatBehavior` | letter_support.py:36-43 | super_good, pretty_good and mostly_good read "super duper good", "pretty good" and "mostly good"; the result is "good" exactly for codes outside the table |
| `Letters.FormatSnack` | letter_support.py:46-53 | cookies, mince_pies and carrots_for_reindeer read "cookies", "mince pies" and "carrots for my reindeer"; the result is "cookies" exactly for "cookies" and codes outside the table |
| `Letters.IsUsableWish` | letter_support.py:97 | `w and w.strip()`: a usable wish is present and non-empty; an empty wish is never usable |
| `Letters.UsableWishes` | letter_support.py:97 | the kept wishes are non-blank, verbatim (unstripped) entries of the list, no more of them than entries |
| `Letters.UsableWishesAppend` | letter_support.py:97 | the filter works entry by entry in order: filtering a concatenation concatenates the results |
| `Letters.NoUsableWishes` | letter_support.py:97-103 | no wish is kept exactly when every entry is missing, empty or whitespace-only |
| `Letters.WishesText` | letter_support.py:94-103 | the phrase is empty iff no wish is kept, the one wish when one is kept, "A and B" for the first two when two or more are kept |
| `Letters.OnlyFirstTwoWishesUsed` | letter_support.py:96-97 | entries after the first two kept wishes never change the phrase |
| `Letters.GenerateLetterScripts` | letter_support.py:56-122 | the nice-thing line is empty iff `niceThing` is missing or empty, the wishes line is empty iff no wish is kept, and the snack line is never empty |
| `Letters.Intro` | letter_support.py:78-81 | Santa's intro line contains the child's name and the behaviour text |
| `Letters.ElfNoticeNamesChild` | letter_support.py:70-74 | the elf's notice contains the child's name |
| `Letters.IntroNamesChild` | letter_support.py:76-81 | Santa's intro contains the child's name |
| `Letters.IntroMentionsBehavior` | letter_support.py:76-81 | the intro contains the friendly behaviour text, "good" when the letter gives none |
| `Letters.NiceThingMentioned` | letter_support.py:83-91 | a given nice thing appears verbatim in its line |
| `Letters.WishesMentioned` | letter_support.py:105-109 | with a kept wish, the wishes line contains the wishes phrase |
| `Letters.SnackMentioned` | letter_support.py:115-120 | the snack line contains the friendly snack text, "cookies" when the letter gives none |
| `Letters.ScriptTable` | letter_support.py:67-122 | the scripts form a dictionary with exactly the five keys, each holding its line |

## Left out

- LiveKit transport: `AudioSource` is only the sequence of captured frames. Track creation and publishing are not modelled, and neither is a failing `capture_frame`.
- Pacing: the 20 ms sleep after each frame and the pauses after lines and files are timing, not logic.
- Deepgram TTS and STT: `Speak` receives the bytes the selected engine streams for the line. So the line's text is not a parameter. The sample rate the stream reports is not modelled either; the source does not resample non-Santa audio with it. `setup_stt` and `listen_for_wishes` are not modelled, because the scripted flow never calls the latter.
- pydub: decoding an MP3, resampling, and the pitch/speed arithmetic (floating point) are foreign. `PlayAudioFile` receives the decoded PCM or `None`. `Speak` receives the transform as a function and keeps only the rule that applies it to the "santa" voice. Any error pydub itself raises on a buffer is not modelled.
- JSON decoding: the decoded maps are inputs, with string values only. Number, null or nested values are not modelled. In `parse_metadata`, a decoded value that is not an object counts as a decoding failure, because the source's `get` then raises inside the `try`.
- `Admission.DecideJob`: metadata that decodes to a non-object, or an `agent_type` that is not a string, makes the source raise instead of deciding. The model cannot express that input.
- `Text.Lower`: maps only the ASCII capitals and keeps the length. Python's `str.lower` maps other letters too and can lengthen a string ("İ", U+0130, lowers to "i" plus a combining dot). No character lowers to text containing a letter of "santa" other than the ASCII capitals S, A, N, T, so the admission comparisons do not depend on the rest of `str.lower`.
- `update_call_status` and `fetch_letter`: HTTP calls to external services.
- `run` and `entrypoint`: a fixed sequence of awaited lines with hard-coded text. Of `run`, only the `child_term` choice is modelled.
- Environment configuration, logging and the CLI bootstrap.
- The `gift_wishes`, `call_active` and `audio_track` fields: nothing in the modelled code reads them.
