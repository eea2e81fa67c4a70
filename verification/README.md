# Wellness app rules in Dafny

This project models the rule logic of a small Next.js wellness app and its
Python emotion service, and proves properties about it:

- **Daily check-in** (`app/wellness-form/page.tsx`). The submit handler
  rejects the first empty field. Then four independent threshold blocks
  (sleep, energy, stress, activity) push canned recommendations onto a
  list, in that order. When none of them fired, one generic "well-balanced"
  entry is added. Module `WellnessForm`.
- **Mental-wellness tracker** (`app/mental-health-form/page.tsx`). A
  checkbox toggle adds or removes an item. Three additive advice rules each
  contribute three lines, joined with newlines. Three metrics feed the
  chart. Module `MentalHealthForm`.
- **Fitness form** (`app/FacialRecognition/page.tsx`, component
  `FitnessForm`). A fixed weekly table per goal, an all-fields check, and
  the goal phrase made from the camelCase goal value. Module `FitnessForm`.
- **Mood summary** (`backend/face_emotions.py`, `analyze_mood`). The most
  common recorded emotion, with ties going to the one seen first, is
  classified as stress, calm or neither. Module `FaceEmotions`.
- **Chat page** (`app/chat/page.tsx`). The classifier decides whether a
  reply is structured or plain text. The send handler ignores blank input.
  Otherwise it appends the user's message and then exactly one assistant
  message. Module `ChatPage`, with the page state as class `ChatSession`.

Shared pieces live in `wrappers.dfy`:

- `Option`/`Result`.
- `ParsedNumber`, the outcome of `parseInt`. `None` stands for `NaN`, and
  every comparison with `NaN` is false.

The canned advice texts are not modelled. Each recommendation is its
category plus a tag naming the entry. Each advice line is a tag, and the
analysis text is a sequence of whole lines and newline separators.

Where the form is imperative in the source, the model is imperative too:

- The check-in handler pushes onto a local list block by block (`Recommend`
  and the `Push…Block` methods).
- `generateRecommendations` pushes, then joins.
- The chat page's state is a class whose handler reassigns its fields.

Each method is proved equal to a specification function, and the
properties are proved about that function.

## Model

| member | source | states |
|---|---|---|
| WellnessForm.HandleSubmit | app/wellness-form/page.tsx:21-218 | The first empty field, checked in the order sleep, energy, stress, activity, is the error. The handler succeeds exactly when all four are filled, and then returns the recommendation list. |
| WellnessForm.Recommend | app/wellness-form/page.tsx:49-215 | The list built push by push equals `Recommendations`, and holds between 1 and 9 entries. |
| WellnessForm.PushSleepBlock | app/wellness-form/page.tsx:52-98 | The sleep block's pushes extend the list by exactly the sleep block's entries. |
| WellnessForm.PushEnergyBlock | app/wellness-form/page.tsx:101-140 | The energy block's pushes extend the list by exactly the energy block's entries. |
| WellnessForm.PushStressBlock | app/wellness-form/page.tsx:143-164 | The stress block's pushes extend the list by exactly the stress block's entries. |
| WellnessForm.PushActivityBlock | app/wellness-form/page.tsx:167-205 | The activity block's pushes extend the list by exactly the activity block's entries. |
| WellnessForm.Recommendations | app/wellness-form/page.tsx:49-215 | The list is never empty and has at most 2+3+2+2 = 9 entries. |
| WellnessForm.SleepBlockKinds | app/wellness-form/page.tsx:52-98 | The sleep branches are exclusive. Below 6 gives sleep, sleep; above 9 gives sleep, social; 7..9 with energy below 4 gives energy, mindfulness; anything else, 6 hours included, gives nothing. |
| WellnessForm.EnergyBlockKinds | app/wellness-form/page.tsx:101-140 | Energy below 4 gives energy, hydration, nutrition; above 7 gives general, movement; otherwise nothing. |
| WellnessForm.StressBlockKinds | app/wellness-form/page.tsx:143-164 | Stress above 7 gives stress, mindfulness; below 3 gives one general; otherwise nothing. |
| WellnessForm.ActivityBlockKinds | app/wellness-form/page.tsx:167-205 | "sedentary" gives two movement entries; "light" gives one movement; "very" or "extra" gives general, nutrition; any other value gives nothing. |
| WellnessForm.BlockOrder | app/wellness-form/page.tsx:49-205 | When any block fires, the list is the concatenation sleep ++ energy ++ stress ++ activity, with no reordering and no deduplication. |
| WellnessForm.KindsOfRecommendations | app/wellness-form/page.tsx:49-205 | The categories of the list are the blocks' categories, concatenated in block order. |
| WellnessForm.FallbackAlone | app/wellness-form/page.tsx:208-215 | The generic entry is present, and then alone, if and only if no block fired. |
| WellnessForm.KindIn | app/wellness-form/page.tsx:49-215 | Any category other than general occurs in the list exactly when one of the four blocks pushes it. |
| WellnessForm.SleepKindIff | app/wellness-form/page.tsx:52-74 | A sleep entry appears if and only if the hours are below 6 or above 9. |
| WellnessForm.SocialKindIff | app/wellness-form/page.tsx:67-81 | A social entry appears if and only if the hours are above 9. |
| WellnessForm.HydrationKindIff | app/wellness-form/page.tsx:101-115 | A hydration entry appears if and only if energy is below 4. |
| WellnessForm.StressKindIff | app/wellness-form/page.tsx:143-150 | A stress entry appears if and only if stress is above 7. |
| WellnessForm.NeutralBoundaries | app/wellness-form/page.tsx:52-215 | The bounds are strict: 6 hours, energy 4..7, stress 3..7 and "moderate" add nothing, and such a check-in gets only the generic entry. |
| WellnessForm.NineHoursLowEnergy | app/wellness-form/page.tsx:67-98 | 7 and 9 hours with energy 3 give the sleep-environment pair; 10 hours gives the oversleep pair. |
| WellnessForm.CombinedBlocks | app/wellness-form/page.tsx:49-205 | 6 hours, energy 2, stress 9, sedentary gives the energy, stress and activity entries in that order. |
| WellnessForm.NaNAddsNothing | app/wellness-form/page.tsx:44-215 | Unparseable numbers pass the emptiness check but no numeric block fires, so the list is the activity block or the generic entry. |
| MentalHealthForm.Without | app/mental-health-form/page.tsx:76 | The filter removes every copy of the item and keeps every other item with its multiplicity. |
| MentalHealthForm.Toggle | app/mental-health-form/page.tsx:72-79 | Membership of the item flips. A present item is filtered out and an absent one is appended at the end. The other list and every other field are unchanged. |
| MentalHealthForm.ToggleTwiceRestores | app/mental-health-form/page.tsx:72-79 | Ticking an absent item and unticking it again restores the form exactly. |
| MentalHealthForm.ToggleKeepsOthers | app/mental-health-form/page.tsx:72-79 | A toggle never changes how many times any other item is selected. |
| MentalHealthForm.AdviceLines | app/mental-health-form/page.tsx:96-120 | Each firing rule contributes exactly three lines, independently of the others, so the count is 0, 3, 6 or 9. |
| MentalHealthForm.GenerateRecommendations | app/mental-health-form/page.tsx:93-123 | The text pushed and joined equals the rules' lines joined by newlines, in rule order. It is empty if and only if no rule fires, so there is no fallback. |
| MentalHealthForm.SplitJoin | app/mental-health-form/page.tsx:122 | Splitting a newline join gives back its parts, when no part holds a newline. |
| MentalHealthForm.JoinEmpty | app/mental-health-form/page.tsx:122 | A join of non-empty lines is empty exactly when there are no lines. |
| MentalHealthForm.AnalysisLines | app/mental-health-form/page.tsx:96-122 | When a rule fires, the analysis splits back into exactly the fired rules' lines, in rule order. |
| MentalHealthForm.ThreeSymptomsSilent | app/mental-health-form/page.tsx:114-120 | Exactly three symptoms add no lines; four add the three symptom lines. |
| MentalHealthForm.MoodTrends | app/mental-health-form/page.tsx:81-91 | There are three metrics, named Mood, Stress and Sleep Quality in that order. Mood is the rating times 10, Stress is the stress level times 10, and Sleep Quality is the hours divided by 12, times 100. Each is `NaN` exactly when its input failed to parse. |
| MentalHealthForm.MoodTrendsRange | app/mental-health-form/page.tsx:86-90 | Mood is the rating times 10. For ratings 1..10 and 0..12 hours of sleep every bar lies within 0..100. |
| FitnessForm.WorkoutData | app/FacialRecognition/page.tsx:45-69 | There are always four rows, none negative, and the last is Rest with 0 minutes. |
| FitnessForm.WorkoutDataByGoal | app/FacialRecognition/page.tsx:46-67 | "loseWeight" gives Cardio 45, HIIT 30, Strength 30. "gainMuscle" gives Strength 60, Cardio 20, Recovery 15. Every other goal, the empty one included, gets Cardio 30, Strength 30, Flexibility 30, Rest 0. |
| FitnessForm.Lower | app/FacialRecognition/page.tsx:84 | The result is never a capital: A-Z move by 32, everything else is unchanged. |
| FitnessForm.ToLower | app/FacialRecognition/page.tsx:84 | Lower-casing keeps the length and lowers character by character. |
| FitnessForm.SpaceBeforeCapitals | app/FacialRecognition/page.tsx:84 | The replace grows the text by one space per capital. |
| FitnessForm.GoalWords | app/FacialRecognition/page.tsx:84 | The phrase has no capitals, and its length is the goal's plus the number of capitals. |
| FitnessForm.GoalWordsSqueeze | app/FacialRecognition/page.tsx:84 | For a goal without spaces, removing the inserted spaces gives back the goal in lower case, so nothing but case and spaces changes. |
| FitnessForm.NoCapitalsUnchanged | app/FacialRecognition/page.tsx:84 | Text without capitals is unchanged by both steps. |
| FitnessForm.GoalWordsLowerUnchanged | app/FacialRecognition/page.tsx:84 | A goal without capitals is its own phrase. |
| FitnessForm.GoalWordsOneCapital | app/FacialRecognition/page.tsx:84 | Two lower-case words around one capital become the words separated by a space, the capital lowered. |
| FitnessForm.GoalWordsExample | app/FacialRecognition/page.tsx:84 | "loseWeight" becomes "lose weight". |
| FitnessForm.HandleSubmit | app/FacialRecognition/page.tsx:71-98 | The error is exactly "any field empty", and its message is 'Please fill in all fields'. Otherwise the plan carries the name, the activity level and the goal phrase. |
| FaceEmotions.LeaderIndex | backend/face_emotions.py:29-30 | The scan keeps a position whose mood is at least as common as every mood before the bound. Every earlier position holds a strictly less common mood. |
| FaceEmotions.MostCommon | backend/face_emotions.py:29-30 | The mood occurs in the history and is at least as common as any mood. Among equally common moods it is the one first seen. |
| FaceEmotions.TieGoesToFirstSeen | backend/face_emotions.py:29-30 | On a two-two tie, the mood seen first is picked. |
| FaceEmotions.ClassifyIsExact | backend/face_emotions.py:32-40 | angry, fear and sad are stress; happy and neutral are calm. Matching is exact and case-sensitive, so "Sad", "surprise" and "No face detected" are neither. |
| FaceEmotions.AnalyzeMood | backend/face_emotions.py:25-40 | An empty history gives "No data yet.". Otherwise the result is the prefix of the mode's class followed by the mode. |
| FaceEmotions.ReadAnalyzeMood | backend/face_emotions.py:25-40 | Reading a summary back recovers the class and the mood, and the no-data message reads as neither. |
| FaceEmotions.TieExample | backend/face_emotions.py:25-36 | sad, happy, happy, sad is summarised as high stress with mood sad. |
| ChatPage.FormatAIResponse | app/chat/page.tsx:86-102 | The reply is structured if and only if it parses to a value with a truthy `sections` or `title`, and then carries that value. Otherwise it is the input text, verbatim. |
| ChatPage.UnstructuredStaysText | app/chat/page.tsx:86-102 | A reply that throws, parses to null or a string, or parses to an object without either key stays text. |
| ChatPage.TitleDecides | app/chat/page.tsx:89-93 | An object with only a title is structured exactly when the title is non-empty. |
| ChatPage.AiMessage | app/chat/page.tsx:133-141 | A structured reply has empty text and carries its content. A text reply carries the text and no content. The id is the clock reading plus one. |
| ChatPage.ReplyMessage | app/chat/page.tsx:119-153 | The message is the assistant's, with id one past the clock reading and that reading as timestamp. A failed request gives the apology, a text message with no content. A reply is structured if and only if it parses to a value with a truthy `sections` or `title`. A structured reply has empty text and carries the parsed value. A text reply keeps its text verbatim and has no content. |
| ChatPage.TrimStartDrops | app/chat/page.tsx:105 | Trimming the start drops only white space and stops at the first other character. |
| ChatPage.TrimEndDrops | app/chat/page.tsx:105 | Trimming the end drops only white space and stops at the last other character. |
| ChatPage.BlankIff | app/chat/page.tsx:105 | The trimmed input is empty if and only if every character is white space. |
| ChatPage.ChatSession.constructor | app/chat/page.tsx:68-70 | The page starts with no messages, an empty input and no typing indicator. |
| ChatPage.ChatSession.SetInput | app/chat/page.tsx:252 | Typing replaces the input and nothing else. |
| ChatPage.ChatSession.HandleSendMessage | app/chat/page.tsx:104-157 | Blank input changes nothing. Otherwise the user's message and then exactly one assistant message, the classified reply or the apology, are appended after the untouched earlier messages. The input is cleared and the typing indicator is off at the end. |

## Left out

- `parseInt` is not modelled. Numeric inputs arrive already parsed, as an
  integer or `NaN`. A form field is either empty or filled with its parsed
  value.
- `JSON.parse` is a parameter of type `string -> Option<Json>`, where `None`
  means it threw. The JSON grammar is not modelled.
- `fetch`, `await` and the provider's nested response path are out of
  scope. The send handler receives the reply text, or `None` when any step
  of the request threw. The page reads the clock four times: `Date.now()`
  and `new Date()` for the user message, and again both for the reply or
  the apology. The model takes two readings, `sentAt` and `repliedAt`. Each
  message uses its one reading for both its id and its timestamp, so the
  model does not capture an id and a timestamp that differ within one
  message.
- ChatPage.ChatSession.HandleSendMessage: the handler runs as one atomic
  step. Two overlapping sends, where the first `setMessages` call reads a
  stale `messages` value, are not modelled, and neither is the intermediate
  state while the request is pending (typing indicator on).
- The API routes (`app/api/chat/route.ts`, `app/api/chat/emotion/route.ts`,
  `app/api/chat/emotionChatRoute.js`) are network proxies and are not part
  of this model.
- `detect_emotion` (a foreign face-analysis library), `start_webcam`
  (camera capture and a wall-clock loop on a thread) and the Flask routes
  are not part of this model. `analyze_mood` takes the history as a value,
  so it cannot modify it.
- MentalHealthForm.MoodTrends: Sleep Quality is computed as the exact
  rational `sleep * 100 / 12`. JavaScript's floating-point rounding is not
  modelled.
- The wording of the advice, recommendation and plan texts is not
  modelled. The entries are tags, and the plan keeps only the parts that
  depend on the form. The optional `details`, `actionable` and `satisfying`
  fields of a recommendation are left out.
- FitnessForm.ToLower: only `A`-`Z` are lowered. JavaScript `toLowerCase`
  also lowers non-ASCII letters.
- Mental-health `handleSubmit` only stores the analysis and toggles flags
  around `generateRecommendations`, which cannot throw. It is not modelled
  separately.
- React rendering, `alert`, the charts, input change handlers other than
  the chat input, and the home-page carousel are UI only.
