# Wellness Essence: dosha analysis, recommendations and admin edits

This project models the core of the Wellness Essence dosha-analysis application in
Dafny and proves properties of that model.

- **The classifier** (`analyzePrakriti`) counts how many of a user's eleven trait answers
  equal each of three fixed dosha templates: Vata, Pitta and Kapha. It sorts the three
  counts with a stable descending sort. It then reports the top dosha as `primary`, and
  the runner-up as `secondary` when the runner-up scored at all.
- **The composer** (`generateRecommendations`) copies the primary dosha's recommendation
  template into a fresh bundle. When there is a secondary, it appends that dosha's lists:
  diet, the four schedule slots and the follow-ups.
- **The analyze route** stores the traits, the classification and the bundle as a new
  analysis of the signed-in user.
- **The admin routes** create, update and delete accounts. Deleting an account also
  deletes every analysis it owns. Other admin routes append a follow-up to a stored
  analysis or splice one out.
- **The questionnaire form** offers three options per trait. It starts every trait
  unselected, replaces one trait per change, and refuses to submit while any trait is
  empty. Each select's label is derived from its camel-case key.

Modules:

- `Records` (`records.dfy`): JavaScript plain objects, as an ordered list of own
  properties, with property reads and property writes. A spread with one overridden key
  is also a property write.
- `Prakriti` (`prakriti.dfy`): the classifier and the composer. Each has a pure
  specification function (`Classify`, `Compose`) and a looping method proved equal to it
  (`AnalyzePrakriti`, `GenerateRecommendations`).
- `Admin` (`admin.dfy`): the document store as a class. It holds a map of users, a map of
  analyses and the next free id. Each route is a method that changes the store.
- `PrakritiForm` (`form.dfy`): the option catalog, the form's state as a class, and the
  label formatter.

Two behaviours of the code that the model keeps:

- The analyze route does not check that the selection is complete. Only the form does
  that, so `Admin.Store.SubmitAnalysis` accepts any selection.
- Removing a follow-up at an index past the end is not an error. `splice` leaves the list
  unchanged and the route answers 200 with the analysis.

## Model

| member | source | states |
|---|---|---|
| Records.IndexOf | client/src/components/PrakritiForm.jsx:26-34 | a property read finds the first property with that key, and reports none only when no property has it |
| Records.AssignSemantics | client/src/components/PrakritiForm.jsx:33-35 | after `{ ...o, [k]: v }`, k reads v and every other key reads as before; an existing key keeps its place, a new key that is not an array index goes at the end; keys stay distinct |
| Prakriti.DoshaNamed | backend/routes/prakriti.js:162 | the name lookup succeeds exactly for the three dosha names, and gives back the dosha with that name |
| Prakriti.TemplateKeys | backend/routes/prakriti.js:35-75 | each template is defined on exactly the eleven trait keys |
| Prakriti.TemplateTraits | backend/routes/prakriti.js:35-75 | the selection equal to one template has eleven entries |
| Prakriti.AtMostOneTemplate | backend/routes/prakriti.js:35-75 | for every key the three template values differ, so one trait value matches at most one template |
| Prakriti.Score | backend/routes/prakriti.js:77-83 | a dosha's score never exceeds the number of trait entries |
| Prakriti.UnknownKeysAddNothing | backend/routes/prakriti.js:80-82 | entries whose key the template lacks never match: they score zero on their own and leave any selection's score unchanged |
| Prakriti.ScoreSumBound | backend/routes/prakriti.js:79-83 | the three scores together are at most the number of trait entries |
| Prakriti.ScoreSumExact | backend/routes/prakriti.js:79-83 | when every value is one of its key's template values, the three scores add up to exactly the number of entries |
| Prakriti.ScoresOfPureSelection | backend/routes/prakriti.js:79-83 | a selection matching only d scores its length for d and zero for the other doshas |
| Prakriti.Insert | backend/routes/prakriti.js:89 | inserting one entry gives one entry more and the same entries plus the new one |
| Prakriti.SortByScore | backend/routes/prakriti.js:85-89 | the sort result is a permutation of the input |
| Prakriti.InsertRanked | backend/routes/prakriti.js:89 | inserting an earlier-declared entry into a ranked list keeps it ranked |
| Prakriti.SortIsStableDescending | backend/routes/prakriti.js:85-89 | on entries given in declaration order, the sort is a permutation with scores non-increasing and ties kept in declaration order |
| Prakriti.RankedOrderUnique | backend/routes/prakriti.js:85-89 | two stable descending arrangements of the same entries are equal, so every stable sort with this comparator gives the same order |
| Prakriti.RankFacts | backend/routes/prakriti.js:85-89 | the sorted array holds each dosha exactly once, with its own score, in ranked order |
| Prakriti.ClassifyRanked | backend/routes/prakriti.js:85-94 | primary names the first sorted entry; secondary names the second one exactly when that entry's score is positive |
| Prakriti.PrimaryIsFirstTopScorer | backend/routes/prakriti.js:85-92 | primary is a dosha whose score is at least every other score; on a tie it is the earliest-declared one |
| Prakriti.SecondaryIsRunnerUp | backend/routes/prakriti.js:91-94 | secondary is null exactly when every non-primary score is 0; otherwise it differs from primary, scores between 1 and primary's score, and is the earliest-declared best of the other two |
| Prakriti.OnlyOneScores | backend/routes/prakriti.js:85-94 | when only one dosha scored, it is primary and secondary is null |
| Prakriti.ExactTemplateMatch | backend/routes/prakriti.js:35-94 | every selection equal to a template on all eleven keys, in any key order, scores 11 for that dosha, which becomes primary with no secondary |
| Prakriti.ExactTemplateMatchWithExtras | backend/routes/prakriti.js:79-94 | keys no template knows change nothing: a template-equal selection followed by such entries still scores 11 and gives that dosha alone |
| Prakriti.TemplateTraitsMatch | backend/routes/prakriti.js:35-75 | the selection built from a template matches that template on every entry |
| Prakriti.NoMatchesGiveVata | backend/routes/prakriti.js:85-94 | when nothing matches, primary is Vata and secondary is null |
| Prakriti.AnalyzePrakriti | backend/routes/prakriti.js:34-95 | the counting loop followed by the sort and pick computes `Classify`, whose properties are the lemmas above |
| Prakriti.Schedule.Put | backend/routes/prakriti.js:182-183 | writing one schedule slot sets that slot and leaves the other three alone |
| Prakriti.ComposePrimaryOnly | backend/routes/prakriti.js:153-172 | without a secondary, the bundle is the primary's template field for field; a primary naming no template gives the all-empty bundle |
| Prakriti.ComposeWithSecondary | backend/routes/prakriti.js:174-186 | with a secondary, every list is the primary's list followed by the secondary's, so follow-up lengths add up; waterIntake is the primary's |
| Prakriti.ClassifiedBundle | backend/routes/prakriti.js:153-186 | for a classified selection the bundle carries the primary template's water intake; it equals that template when there is no secondary, else its follow-ups are primary's then secondary's |
| Prakriti.VataExample | backend/routes/prakriti.js:117-133 | the full Vata selection yields Vata's breakfast and Vata's bedtime advice |
| Prakriti.AppendTemplate | backend/routes/prakriti.js:174-186 | pushing the secondary's diet lists, then each schedule slot in key order, then the follow-ups, yields `Append` of the two bundles |
| Prakriti.BuildRecommendations | backend/routes/prakriti.js:153-188 | starting from the empty bundle, the primary copy and the guarded secondary append compute `Merge` of the two looked-up templates |
| Prakriti.GenerateRecommendations | backend/routes/prakriti.js:98-189 | the template lookups followed by the in-place building of the bundle compute `Compose`, whose properties are the lemmas above |
| Admin.RoleOrDefault | backend/routes/admin.js:44 | a missing or empty role becomes 'user'; any other role is kept |
| Admin.SpliceOneRemovesExactlyOne | backend/routes/admin.js:117 | an in-range splice removes exactly that entry: one fewer, earlier entries in place, later entries shifted down, the same entries less the removed one; an index past the end changes nothing |
| Admin.SpliceOneInverse | backend/routes/admin.js:117 | putting the removed entry back at its index restores the list |
| Admin.SpliceOneUndoesAppend | backend/routes/admin.js:103-117 | removing the last follow-up right after adding one restores the list |
| Admin.WithoutOwner | backend/routes/admin.js:75 | the kept ids are exactly those of analyses owned by another user, each kept unchanged; every analysis of the deleted user is gone |
| Admin.WithFollowUps | backend/routes/admin.js:103-104 | replacing the follow-up list keeps the owner, traits, classification, diet and schedule |
| Admin.Store.CreateUser | backend/routes/admin.js:32-52 | a taken email gives 400 and adds no user; otherwise 201 and one new user under a fresh id, with the hashed password and the role or 'user' |
| Admin.Store.UpdateUser | backend/routes/admin.js:55-68 | an unknown id gives 404 and changes nothing; otherwise email, role and the whole profile are replaced and the password hash is kept |
| Admin.Store.DeleteUser | backend/routes/admin.js:71-80 | an unknown id gives 404 and removes nothing; otherwise the user and exactly the analyses it owns are removed |
| Admin.Store.AddFollowUp | backend/routes/admin.js:93-110 | missing or empty text gives 400, then an unknown analysis gives 404, both with no change; otherwise the text goes at the end of that analysis's follow-ups and nothing else changes |
| Admin.Store.RemoveFollowUp | backend/routes/admin.js:113-123 | an unknown analysis gives 404 with no change; otherwise that analysis's follow-ups are spliced at the index and nothing else changes |
| Admin.Store.SubmitAnalysis | backend/routes/prakriti.js:7-25 | a new analysis under a fresh id holds the traits, their classification and the composed bundle; users are unchanged |
| PrakritiForm.CatalogMatchesTemplates | client/src/components/PrakritiForm.jsx:6-18 | the form asks for the classifier's eleven keys in order, three options each, and options 0, 1 and 2 are the Vata, Pitta and Kapha template values |
| PrakritiForm.OptionKeysDistinct | client/src/components/PrakritiForm.jsx:6-18 | no trait key appears twice in the catalog |
| PrakritiForm.EmptySelection | client/src/components/PrakritiForm.jsx:24-29 | the unselected state has one entry per catalog trait |
| PrakritiForm.InitialTraits | client/src/components/PrakritiForm.jsx:24-29 | the reduce builds the eleven catalog keys in order, distinct, each mapped to the empty string |
| PrakritiForm.InitialStateOnForm | client/src/components/PrakritiForm.jsx:24-46 | the initial state is a reachable form state with distinct keys, and it cannot be submitted |
| PrakritiForm.ChangeStaysOnForm | client/src/components/PrakritiForm.jsx:33-35 | choosing an offered option sets that trait only and keeps the state on the form |
| PrakritiForm.SubmittedSelectionScores | client/src/components/PrakritiForm.jsx:42-46 | a complete selection from the catalog scores exactly 11 in total, so the primary scores at least 4 |
| PrakritiForm.Form.constructor | client/src/components/PrakritiForm.jsx:24-30 | the form starts with every trait unselected and no error message |
| PrakritiForm.Form.HandleChange | client/src/components/PrakritiForm.jsx:33-35 | a change writes the named trait and keeps the error message |
| PrakritiForm.Form.HandleSubmit | client/src/components/PrakritiForm.jsx:37-46 | submission proceeds exactly when every trait is selected; otherwise it sets the select-every-trait message; the traits are unchanged |
| PrakritiForm.SpacingShape | client/src/components/PrakritiForm.jsx:92 | the spacing step adds one character per capital letter, and every capital letter in its output has a space right before it |
| PrakritiForm.LabelLength | client/src/components/PrakritiForm.jsx:92 | a label is as long as its key plus the number of capital letters in it |
| PrakritiForm.RemoveInsertedSpaces | client/src/components/PrakritiForm.jsx:92 | for a key without spaces, deleting the spaces undoes the spacing step |
| PrakritiForm.LabelRoundTrip | client/src/components/PrakritiForm.jsx:92 | a lower-case-initial key without spaces is recovered from its label |
| PrakritiForm.SpacingAppend | client/src/components/PrakritiForm.jsx:92 | the spacing step works piece by piece on a concatenation |
| PrakritiForm.SpacingWithoutCapitals | client/src/components/PrakritiForm.jsx:92 | a key without capital letters is left unchanged by the spacing step |
| PrakritiForm.SpacingOneCapital | client/src/components/PrakritiForm.jsx:92 | a single inner capital gets exactly one space before it |
| PrakritiForm.OneCapitalLabel | client/src/components/PrakritiForm.jsx:92 | the label of a two-word camel-case key is the first word capitalised, a space, then the second word |
| PrakritiForm.LabelExample | client/src/components/PrakritiForm.jsx:92 | "weatherPreference" is shown as "Weather Preference" |

## Left out

- Database semantics: Mongoose lookups, `save`, `populate` and `deleteMany` are modelled as map operations on the store. Document ids are modelled as a counter that never reuses an id. Timestamps, the `date` default and the newest-first history order are not modelled.
- The read-only routes (analysis history, admin listings, follow-up listing) are not modelled; they change nothing.
- Password hashing: bcrypt is a foreign library call. `Admin.Store.CreateUser` takes the hash as a parameter.
- Sign-up, login and token handling are not part of this model, nor is the router's authentication middleware. The admin router mounts no access check, so none is modelled.
- The 500 answers for thrown database errors are not modelled, because the store here cannot fail.
- Admin.Store.UpdateUser: every request field is taken as present. A field missing from the request, which Mongoose would skip, is not modelled. Email uniqueness on update is not checked by the route, and not by the model. The password-free projection of the reply is not modelled; the reply carries the stored user.
- Admin.Store.CreateUser: `age` is a natural number; the string coercions of the request body are not modelled.
- Admin.Store.RemoveFollowUp: the index is a non-negative integer. A negative or non-numeric `:index` string, which JavaScript's `splice` coerces, is not modelled.
- Records.Assign: JavaScript lists integer-like keys (array indices) first, in ascending order, before the other keys; the model keeps plain insertion order for every key. Every key the form writes is a trait name, never an array index.
- Trait values are strings. Non-string values in a request body, and inherited property names such as "constructor" used as a dosha name in the template lookup, are not modelled.
- Prakriti.Score: counts matching entries of the trait object. This equals the source's count per key because object keys are distinct.
- PrakritiForm.Form.HandleSubmit: only the validation step is modelled. Posting the selection, fetching the current user, navigation and the network error messages are I/O and are not part of this model.
- PrakritiForm.ToUpper: upper-cases ASCII letters only; JavaScript's full Unicode case mapping is not modelled. The capital-letter pattern `[A-Z]` is ASCII in the source as well.
- The rendering of the form, and every other client and admin screen, is not part of this model.
- backend/models/Prakriti.js is not used by any route and is not part of this model. backend/models/Analysis.js supplies only the record shape.
